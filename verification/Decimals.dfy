/**
 Decimal numbers as the number library holds them, a coefficient and an exponent of ten: their exact
 arithmetic, the rounding and the text of a quantity that goes on the wire, and the grammar the
 contract has for such texts.
 */
module Decimals {
  import opened Sequences

  /** The number coef * 10^exp. */
  datatype Decimal = Decimal(coef: int, exp: int)

  const ZERO := Decimal(0, 0)

  function FromInt(n: int): Decimal { Decimal(n, 0) }

  /** a * 10^n, by repeated multiplication by ten. */
  function Shift(a: int, n: nat): int {
    if n == 0 then a else 10 * Shift(a, n - 1)
  }

  lemma {:induction false} ShiftAdds(a: int, b: int, n: nat)
    ensures Shift(a + b, n) == Shift(a, n) + Shift(b, n)
  {
    if n != 0 { ShiftAdds(a, b, n - 1); }
  }

  lemma {:induction false} ShiftTwice(a: int, m: nat, n: nat)
    ensures Shift(Shift(a, m), n) == Shift(a, m + n)
  {
    if n != 0 { ShiftTwice(a, m, n - 1); }
  }

  lemma {:induction false} ShiftOrder(a: int, b: int, n: nat)
    ensures a < b <==> Shift(a, n) < Shift(b, n)
  {
    if n != 0 { ShiftOrder(a, b, n - 1); }
  }

  lemma {:induction false} ShiftZero(n: nat)
    ensures Shift(0, n) == 0
  {
    if n != 0 { ShiftZero(n - 1); }
  }

  function Pow10(n: nat): int { Shift(1, n) }

  /** The coefficient of the same number written with a smaller exponent. */
  function Coef(d: Decimal, e: int): int
    requires e <= d.exp
  {
    Shift(d.coef, d.exp - e)
  }

  /** Equality of numbers, not of representations. */
  predicate Same(a: Decimal, b: Decimal) {
    var e := Min(a.exp, b.exp);
    Coef(a, e) == Coef(b, e)
  }

  predicate Greater(a: Decimal, b: Decimal) {
    var e := Min(a.exp, b.exp);
    Coef(a, e) > Coef(b, e)
  }

  function Plus(a: Decimal, b: Decimal): Decimal {
    var e := Min(a.exp, b.exp);
    Decimal(Coef(a, e) + Coef(b, e), e)
  }

  function Minus(a: Decimal, b: Decimal): Decimal {
    var e := Min(a.exp, b.exp);
    Decimal(Coef(a, e) - Coef(b, e), e)
  }

  function Times(a: Decimal, b: Decimal): Decimal { Decimal(a.coef * b.coef, a.exp + b.exp) }

  predicate Positive(d: Decimal) { d.coef > 0 }

  /** Division by 1000 and by 2^30 is exact in decimal notation: 1/2^30 == 5^30 / 10^30. */
  function DivThousand(d: Decimal): Decimal { Decimal(d.coef, d.exp - 3) }

  const FIVE_TO_30 := 931322574615478515625

  function DivGib(d: Decimal): Decimal { Decimal(d.coef * FIVE_TO_30, d.exp - 30) }

  /** a / 10^n rounded down, by dropping one digit at a time. */
  function Shrink(a: int, n: nat): int {
    if n == 0 then a else Shrink(a, n - 1) / 10
  }

  /** Rounds half up, for positive numbers: truncate one place further, add five, drop the place. */
  function Round(d: Decimal, places: nat): Decimal
    requires Positive(d)
  {
    if d.exp == 0 - places then d
    else
      var e := 0 - places - 1;
      var c := if e <= d.exp then Coef(d, e) else Shrink(d.coef, e - d.exp);
      Decimal((c + 5) / 10, 0 - places)
  }

  const MAX_PLACES := 12

  /** The quantity that goes on the wire, when there is one: positive, with at most twelve places. */
  function PositiveQuantity(d: Decimal): (r: Option<Decimal>)
    ensures r.Some? ==> Positive(r.value) && r.value.exp >= -MAX_PLACES
  {
    if !Positive(d) then None
    else
      var v := if -d.exp > MAX_PLACES then Round(d, MAX_PLACES) else d;
      if Positive(v) then Some(v) else None
  }

  lemma {:induction false} ShrinkBounds(a: int, n: nat)
    ensures Shift(Shrink(a, n), n) <= a < Shift(Shrink(a, n) + 1, n)
  {
    if n > 0 {
      ShrinkBounds(a, n - 1);
      var b, c := Shrink(a, n - 1), Shrink(a, n);
      ShiftTwice(c, 1, n - 1);
      ShiftTwice(c + 1, 1, n - 1);
      assert Shift(c, 1) == 10 * c && Shift(c + 1, 1) == 10 * c + 10;
      ShiftOrder(b, 10 * c, n - 1);
      ShiftOrder(10 * c + 10, b + 1, n - 1);
    }
  }

  /** Rounding misses by at most half a unit of the last place, and a tie goes up. */
  lemma RoundHalfUp(d: Decimal, places: nat)
    requires Positive(d) && d.exp < 0 - places
    ensures var r, n := Round(d, places), 0 - places - d.exp;
            r.exp == 0 - places && Shift(r.coef, n) - Shift(5, n - 1) <= d.coef < Shift(r.coef, n) + Shift(5, n - 1)
  {
    var r, n := Round(d, places).coef, 0 - places - d.exp;
    var c := Shrink(d.coef, n - 1);
    ShrinkBounds(d.coef, n - 1);
    ShiftTwice(r, 1, n - 1);
    assert Shift(r, 1) == 10 * r;
    ShiftAdds(10 * r, 5, n - 1);
    ShiftAdds(10 * r - 5, 5, n - 1);
    ShiftOrder(c, 10 * r - 5, n - 1);
    ShiftOrder(10 * r + 5, c + 1, n - 1);
  }

  /** Twelve places go on the wire: fewer are kept, more are rounded, and what rounds to nothing is left out. */
  lemma WireQuantity(d: Decimal)
    ensures d.exp >= -12 ==> PositiveQuantity(d) == if d.coef > 0 then Some(d) else None
    ensures d.exp < -12 ==>
              var q, n := PositiveQuantity(d), -12 - d.exp;
              && (q.Some? <==> d.coef >= Shift(5, n - 1))
              && (q.Some? ==> q.value.exp == -12
                              && Shift(q.value.coef, n) - Shift(5, n - 1) <= d.coef < Shift(q.value.coef, n) + Shift(5, n - 1))
  {
    if d.exp < -12 {
      var n := -12 - d.exp;
      ShiftZero(n - 1); ShiftZero(n);
      ShiftOrder(0, 5, n - 1);
      if Positive(d) {
        RoundHalfUp(d, 12);
        var r := Round(d, 12).coef;
        ShiftOrder(r, 0, n);
        if r > 0 { AtLeastOneUnit(r, n); }
      }
    }
  }

  lemma AtLeastOneUnit(r: int, n: nat)
    requires r > 0 && n > 0
    ensures Shift(r, n) >= 2 * Shift(5, n - 1)
  {
    ShiftOrder(r, 1, n);
    ShiftTwice(1, 1, n - 1);
    ShiftAdds(5, 5, n - 1);
    assert Shift(1, 1) == 10;
  }

  /** The quotients are exact. */
  lemma DivisionsExact(d: Decimal)
    ensures Same(Times(DivThousand(d), FromInt(1000)), d)
    ensures Same(Times(DivGib(d), FromInt(0x4000_0000)), d)
  {
    ShiftTimes(d.coef, 3);
    ShiftTimes(d.coef, 30);
    ShiftLiterals();
    hide Shift;
    ShiftNone(Times(DivThousand(d), FromInt(1000)).coef);
    ShiftNone(Times(DivGib(d), FromInt(0x4000_0000)).coef);
  }

  lemma ShiftLiterals()
    ensures Shift(1, 3) == 1000 && Shift(1, 30) == FIVE_TO_30 * 0x4000_0000
  {
    ShiftTwice(1, 10, 10);
    ShiftTwice(1, 20, 10);
    assert Shift(1, 3) == 1000 && Shift(1, 10) == 1_00000_00000;
    ShiftTimes(1_00000_00000, 10);
    ShiftTimes(1_00000_00000_00000_00000, 10);
  }

  lemma ShiftNone(a: int)
    ensures Shift(a, 0) == a
  {
  }

  lemma {:induction false} ShiftTimes(a: int, n: nat)
    ensures Shift(a, n) == a * Shift(1, n)
  {
    if n > 0 { ShiftTimes(a, n - 1); }
  }

  // ---------------------------------------------------------------- text

  function DigitChar(n: int): char
    requires 0 <= n < 10
  {
    ['0', '1', '2', '3', '4', '5', '6', '7', '8', '9'][n]
  }

  predicate IsDigit(c: char) { '0' <= c <= '9' }

  function DigitValue(c: char): (n: int)
    requires IsDigit(c)
    ensures 0 <= n < 10
  {
    c as int - '0' as int
  }

  lemma DigitRoundTrip(n: int)
    requires 0 <= n < 10
    ensures IsDigit(DigitChar(n)) && DigitValue(DigitChar(n)) == n
    ensures DigitChar(n) == '0' <==> n == 0
  {
  }

  predicate AllDigits(s: string) { forall i :: 0 <= i < |s| ==> IsDigit(s[i]) }

  /** Decimal digits without leading zeros. */
  function Digits(n: nat): string {
    if n < 10 then [DigitChar(n)] else Digits(n / 10) + [DigitChar(n % 10)]
  }

  function NatOf(s: string): nat
    requires AllDigits(s)
  {
    if s == [] then 0 else NatOf(s[..|s| - 1]) * 10 + DigitValue(s[|s| - 1])
  }

  lemma {:induction false} DigitsShape(n: nat)
    ensures var s := Digits(n);
            && |s| > 0 && AllDigits(s) && NatOf(s) == n
            && (n > 0 ==> s[0] != '0')
  {
    if n < 10 {
      DigitRoundTrip(n);
      assert [DigitChar(n)][..0] == [];
    } else {
      var s := Digits(n / 10);
      DigitsShape(n / 10);
      DigitRoundTrip(n % 10);
      assert (s + [DigitChar(n % 10)])[..|s|] == s;
    }
  }

  /** A number has at most k digits exactly when it is below 10^k. */
  lemma {:induction false} DigitsLength(n: nat, k: nat)
    requires k > 0
    ensures |Digits(n)| <= k <==> n < Pow10(k)
    decreases n
  {
    if n < 10 {
      ShiftOrder(0, 1, k - 1);
      ShiftZero(k - 1);
    } else if k == 1 {
      DigitsShape(n / 10);
    } else {
      DigitsLength(n / 10, k - 1);
    }
  }

  lemma {:induction false} NatOfConcat(a: string, b: string)
    requires AllDigits(a) && AllDigits(b)
    ensures AllDigits(a + b) && NatOf(a + b) == Shift(NatOf(a), |b|) + NatOf(b)
  {
    if b == [] {
      assert a + b == a;
    } else {
      var init := b[..|b| - 1];
      assert (a + b)[..|a + b| - 1] == a + init;
      NatOfConcat(a, init);
    }
  }

  function Zeros(n: nat): string { seq(n, i => '0') }

  lemma {:induction false} ZerosValue(n: nat)
    ensures AllDigits(Zeros(n)) && NatOf(Zeros(n)) == 0
  {
    if n > 0 {
      ZerosValue(n - 1);
      assert Zeros(n)[..n - 1] == Zeros(n - 1);
    }
  }

  function TrimZeros(s: string): string {
    if s != [] && s[|s| - 1] == '0' then TrimZeros(s[..|s| - 1]) else s
  }

  lemma {:induction false} TrimZerosValue(s: string) returns (n: nat)
    requires AllDigits(s)
    ensures n <= |s| && TrimZeros(s) == s[..|s| - n] && AllDigits(TrimZeros(s))
    ensures NatOf(s) == Shift(NatOf(TrimZeros(s)), n)
  {
    if s != [] && s[|s| - 1] == '0' {
      var init := s[..|s| - 1];
      var m := TrimZerosValue(init);
      n := m + 1;
      assert init[..|init| - m] == s[..|s| - n];
    } else {
      n := 0;
      assert s[..|s|] == s;
    }
  }

  /** A digit string cut `places` digits from its end, padded with zeros when it is shorter. */
  function WholeDigits(s: string, places: nat): string {
    if |s| > places then s[..|s| - places] else "0"
  }

  function FracDigits(s: string, places: nat): string {
    if |s| > places then s[|s| - places..] else Zeros(places - |s|) + s
  }

  /** Integer and fraction digits of a positive number, the fraction not yet trimmed. */
  function IntPart(d: Decimal): string
    requires Positive(d)
  {
    if d.exp >= 0 then
      CoefPositive(d);
      Digits(Coef(d, 0))
    else WholeDigits(Digits(d.coef), -d.exp)
  }

  function FracPart(d: Decimal): string
    requires Positive(d)
  {
    if d.exp >= 0 then "" else FracDigits(Digits(d.coef), -d.exp)
  }

  /** The library's String(): no exponent, no trailing zeros in the fraction. */
  function Text(d: Decimal): string
    requires Positive(d)
  {
    Joined(IntPart(d), TrimZeros(FracPart(d)))
  }

  // ---------------------------------------------------------------- the wire grammar

  predicate NoLeadingZero(s: string) { s == "0" || (s != "" && s[0] != '0') }

  function PointAt(s: string): nat {
    if s == "" || s[0] == '.' then 0 else 1 + PointAt(s[1..])
  }

  lemma {:induction false} PointFound(a: string, b: string)
    requires '.' !in a && (b == "" || b[0] == '.')
    ensures PointAt(a + b) == |a|
  {
    if a == "" {
      assert a + b == b;
    } else {
      assert (a + b)[1..] == a[1..] + b;
      assert (a + b)[0] == a[0] && a[0] in a;
      PointFound(a[1..], b);
    }
  }

  /** ^(?:0|[1-9][0-9]{0,25})(?:\.[0-9]{1,12})?$ with a non-zero digit somewhere. */
  predicate PlainPositive(s: string) {
    var p := PointAt(s);
    && p <= |s|
    && var whole, rest := s[..p], s[p..];
       && AllDigits(whole) && NoLeadingZero(whole) && |whole| <= 26
       && (rest == "" || (AllDigits(rest[1..]) && 1 <= |rest[1..]| <= MAX_PLACES))
       && NonZeroDigit(s)
  }

  /** The number a plain text denotes. */
  function Reading(s: string): Decimal
    requires PlainPositive(s)
  {
    var p := PointAt(s);
    var whole, frac := s[..p], if p == |s| then "" else s[p + 1..];
    Decimal(Shift(NatOf(whole), |frac|) + NatOf(frac), -|frac|)
  }

  const LIMIT := Decimal(1, 26)

  lemma AllDigitsSlice(s: string, k: nat)
    requires AllDigits(s) && k <= |s|
    ensures AllDigits(s[..k]) && AllDigits(s[k..])
    ensures Shift(NatOf(s[..k]), |s| - k) + NatOf(s[k..]) == NatOf(s)
  {
    var a, b := s[..k], s[k..];
    assert a + b == s;
    NatOfConcat(a, b);
  }

  predicate PartsOf(d: Decimal)
    requires Positive(d)
  {
    && AllDigits(IntPart(d)) && NoLeadingZero(IntPart(d)) && AllDigits(FracPart(d))
    && |FracPart(d)| == Max(0, -d.exp)
    && Shift(NatOf(IntPart(d)), |FracPart(d)|) + NatOf(FracPart(d)) == (if d.exp >= 0 then Coef(d, 0) else d.coef)
  }

  lemma CoefPositive(d: Decimal)
    requires Positive(d) && d.exp >= 0
    ensures Coef(d, 0) > 0
  {
    ShiftOrder(0, d.coef, d.exp);
    ShiftZero(d.exp);
  }

  lemma WholeParts(d: Decimal)
    requires Positive(d) && d.exp >= 0
    ensures PartsOf(d)
  {
    CoefPositive(d);
    DigitsShape(Coef(d, 0));
  }

  lemma SplitParts(d: Decimal)
    requires Positive(d) && d.exp < 0
    ensures PartsOf(d)
  {
    DigitsShape(d.coef);
    SplitDigits(Digits(d.coef), -d.exp);
  }

  /** The digits of a positive number split at the point: digits everywhere, no superfluous leading zero. */
  lemma TextParts(d: Decimal)
    requires Positive(d)
    ensures PartsOf(d)
  {
    if d.exp >= 0 { WholeParts(d); } else { SplitParts(d); }
  }

  lemma SplitDigits(s: string, places: nat)
    requires AllDigits(s) && s != "" && s[0] != '0' && places > 0
    ensures var whole, frac := WholeDigits(s, places), FracDigits(s, places);
            && AllDigits(whole) && NoLeadingZero(whole) && AllDigits(frac) && |frac| == places
            && Shift(NatOf(whole), places) + NatOf(frac) == NatOf(s)
  {
    if |s| > places { AllDigitsSlice(s, |s| - places); } else { PaddedDigits(s, places); }
  }

  lemma PaddedDigits(s: string, places: nat)
    requires AllDigits(s) && |s| <= places
    ensures AllDigits("0") && NatOf("0") == 0 && AllDigits(Zeros(places - |s|) + s)
    ensures Shift(NatOf("0"), places) + NatOf(Zeros(places - |s|) + s) == NatOf(s)
  {
    ZerosValue(places - |s|);
    NatOfConcat(Zeros(places - |s|), s);
    assert "0"[..0] == "";
    ShiftZero(places); ShiftZero(|s|);
  }

  lemma {:induction false} PositiveHasDigit(s: string)
    requires AllDigits(s) && NatOf(s) > 0
    ensures NonZeroDigit(s)
  {
    if s[|s| - 1] == '0' {
      var init := s[..|s| - 1];
      PositiveHasDigit(init);
      var i :| 0 <= i < |init| && '1' <= init[i] <= '9';
      assert s[i] == init[i];
    }
  }

  /** What the text of a positive number with at most twelve places looks like and denotes. */
  lemma TextReads(d: Decimal)
    requires Positive(d) && d.exp >= -MAX_PLACES
    ensures PlainPositive(Text(d)) <==> |IntPart(d)| <= 26
    ensures PlainPositive(Text(d)) ==> Same(Reading(Text(d)), d)
  {
    TextParts(d);
    var n := TrimZerosValue(FracPart(d));
    JoinedPoint(IntPart(d), TrimZeros(FracPart(d)));
    TextNonZero(d, n);
    if PlainPositive(Text(d)) {
      var whole, frac := IntPart(d), TrimZeros(FracPart(d));
      ReadingOf(whole, frac);
      ReadingSame(d, Reading(Text(d)), NatOf(whole), NatOf(frac), |frac|, n);
    }
  }

  predicate NonZeroDigit(s: string) { exists i :: 0 <= i < |s| && '1' <= s[i] <= '9' }

  lemma NonZeroParts(whole: string, frac: string)
    requires AllDigits(whole) && AllDigits(frac) && (NatOf(whole) > 0 || NatOf(frac) > 0)
    ensures NonZeroDigit(Joined(whole, frac))
  {
    var s := Joined(whole, frac);
    if NatOf(whole) > 0 {
      PositiveHasDigit(whole);
      var i :| 0 <= i < |whole| && '1' <= whole[i] <= '9';
      assert s[i] == whole[i];
    } else {
      PositiveHasDigit(frac);
      var i :| 0 <= i < |frac| && '1' <= frac[i] <= '9';
      assert s[|whole| + 1 + i] == frac[i];
    }
  }

  lemma TextNonZero(d: Decimal, n: nat)
    requires Positive(d)
    requires AllDigits(FracPart(d)) && AllDigits(TrimZeros(FracPart(d)))
    requires NatOf(FracPart(d)) == Shift(NatOf(TrimZeros(FracPart(d))), n)
    ensures NonZeroDigit(Text(d))
  {
    TextParts(d);
    ShiftZero(n); ShiftZero(|FracPart(d)|);
    if d.exp >= 0 { CoefPositive(d); }
    NonZeroParts(IntPart(d), TrimZeros(FracPart(d)));
  }

  function Joined(whole: string, frac: string): string { whole + if frac == "" then "" else "." + frac }

  lemma JoinedPoint(whole: string, frac: string)
    requires AllDigits(whole)
    ensures var s := Joined(whole, frac);
            && PointAt(s) == |whole| <= |s| && s[..|whole|] == whole
            && s[|whole|..] == (if frac == "" then "" else "." + frac)
            && (if frac == "" then |s| == |whole| else |s| == |whole| + 1 + |frac| && s[|whole| + 1..] == frac)
  {
    var rest := if frac == "" then "" else "." + frac;
    forall c | c in whole ensures c != '.' { }
    PointFound(whole, rest);
  }

  /** Reading back digits around a point. */
  lemma ReadingOf(whole: string, frac: string)
    requires AllDigits(whole) && AllDigits(frac)
    requires PlainPositive(Joined(whole, frac))
    ensures Reading(Joined(whole, frac)) == Decimal(Shift(NatOf(whole), |frac|) + NatOf(frac), -|frac|)
  {
    JoinedPoint(whole, frac);
  }

  /** Dropping `n` trailing zeros of the fraction leaves the same number. */
  lemma SameTrimmed(d: Decimal, w: int, f: int, places: nat, n: nat)
    requires d.exp == 0 - places - n
    requires Shift(w, places + n) + Shift(f, n) == d.coef
    ensures Same(Decimal(Shift(w, places) + f, 0 - places), d)
  {
    ShiftTwice(w, places, n);
    ShiftAdds(Shift(w, places), f, n);
    SameShifted(Decimal(Shift(w, places) + f, 0 - places), d, n);
  }

  lemma SameWhole(d: Decimal, w: int)
    requires d.exp >= 0 && w == Coef(d, 0)
    ensures Same(Decimal(w, 0), d)
  {
    SameShifted(d, Decimal(w, 0), d.exp);
  }

  /** The number read back, from the two digit values `w` and `f` of the trimmed text. */
  lemma ReadingSame(d: Decimal, r: Decimal, w: int, f: int, places: nat, n: nat)
    requires places + n == Max(0, -d.exp)
    requires r == Decimal(Shift(w, places) + f, 0 - places)
    requires Shift(w, places + n) + Shift(f, n) == (if d.exp >= 0 then Coef(d, 0) else d.coef)
    ensures Same(r, d)
  {
    if d.exp < 0 { SameTrimmed(d, w, f, places, n); } else { SameWhole(d, w + f); }
  }

  lemma SameShifted(r: Decimal, d: Decimal, n: nat)
    requires r.exp == d.exp + n && Shift(r.coef, n) == d.coef
    ensures Same(r, d)
  {
  }

  /** The integer part fits exactly when the number is below 10^26. */
  lemma IntPartFits(d: Decimal)
    requires Positive(d)
    ensures |IntPart(d)| <= 26 <==> Greater(LIMIT, d)
  {
    if d.exp >= 0 {
      CoefPositive(d);
      DigitsLength(Coef(d, 0), 26);
      CompareLimit(d);
    } else {
      DigitsLength(d.coef, 26 - d.exp);
      DigitsShape(d.coef);
      CompareLimit(d);
    }
  }

  lemma CompareLimit(d: Decimal)
    ensures d.exp < 0 ==> (Greater(LIMIT, d) <==> d.coef < Pow10(26 - d.exp))
    ensures d.exp >= 0 ==> (Greater(LIMIT, d) <==> Coef(d, 0) < Pow10(26))
  {
    if d.exp >= 0 {
      var e := Min(26, d.exp);
      ShiftTwice(1, 26 - e, e);
      ShiftTwice(d.coef, d.exp - e, e);
      ShiftOrder(Coef(d, e), Pow10(26 - e), e);
    }
  }

  /**
   The wire text of a positive quantity satisfies the contract's grammar exactly when the quantity
   is below 10^26, and it then denotes that quantity.
   */
  lemma QuantityText(d: Decimal)
    requires Positive(d) && d.exp >= -MAX_PLACES
    ensures PlainPositive(Text(d)) <==> Greater(LIMIT, d)
    ensures PlainPositive(Text(d)) ==> Same(Reading(Text(d)), d)
  {
    TextReads(d);
    IntPartFits(d);
  }
}
