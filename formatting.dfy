/**
 * Number formatting helpers of src/utils.ts: `_cutZeros`, `formatNumber`,
 * `parseUnits` and `mulBy1_3`, with the `MAX_ALLOWANCE` constant.
 *
 * Numbers reach these helpers as decimal strings. `Dec` is such a string
 * taken apart (sign, integer digits, fraction digits); `Render` writes it
 * back the way `String(n)` does. `parseUnits` hands the output of
 * `formatNumber` to the fixed-point parser of the ethers library, which
 * `LibParseUnits` models.
 */
module Formatting {
  import opened Wrappers
  import opened Strings

  /** 2^256 - 1: the allowance reported for the native coin and granted by a maximal approve. */
  const MAX_ALLOWANCE: nat := 115792089237316195423570985008687907853269984665640564039457584007913129639935

  function Pow2(n: nat): (r: nat)
    ensures r >= 1
  {
    if n == 0 then 1 else 2 * Pow2(n - 1)
  }

  lemma {:induction false} Pow2Add(a: nat, b: nat)
    ensures Pow2(a + b) == Pow2(a) * Pow2(b)
  {
    if b > 0 {
      Pow2Add(a, b - 1);
      assert Pow2(a + b) == 2 * Pow2(a + b - 1);
    }
  }

  lemma MaxAllowanceIsAllOnes()
    ensures MAX_ALLOWANCE == Pow2(256) - 1
  {
    assert Pow2(2) == 4;
    Pow2Add(2, 2);
    Pow2Add(4, 4);
    assert Pow2(8) == 256;
    Pow2Add(8, 8);
    assert Pow2(16) == 65536;
    Pow2Add(16, 16);
    assert Pow2(32) == 4294967296;
    Pow2Add(32, 32);
    assert Pow2(64) == 18446744073709551616;
    Pow2Add(64, 64);
    assert Pow2(128) == 340282366920938463463374607431768211456;
    Pow2Add(128, 128);
  }

  function Min(a: nat, b: nat): nat {
    if a <= b then a else b
  }

  // ---------------------------------------------------------------- _cutZeros

  /** `s` without its maximal run of trailing '0' characters. */
  function TrimTrailingZeros(s: string): (r: string)
    ensures r <= s
    ensures forall i :: |r| <= i < |s| ==> s[i] == '0'
    ensures |r| == 0 || r[|r| - 1] != '0'
  {
    if |s| > 0 && s[|s| - 1] == '0' then TrimTrailingZeros(s[..|s| - 1]) else s
  }

  /**
   * `_cutZeros`: drops the trailing zeros, then at most one trailing '.'.
   * The result is a prefix of the input; what was cut is a run of '0's,
   * possibly headed by one '.'; and when no '.' was cut nothing more could be.
   */
  function CutZeros(s: string): (r: string)
    ensures r <= s
    ensures forall i :: |r| < i < |s| ==> s[i] == '0'
    ensures |r| < |s| ==> s[|r|] == '0' || s[|r|] == '.'
    ensures |r| == |s| || s[|r|] == '0' ==> |r| == 0 || (r[|r| - 1] != '0' && r[|r| - 1] != '.')
  {
    var t := TrimTrailingZeros(s);
    if |t| > 0 && t[|t| - 1] == '.' then t[..|t| - 1] else t
  }

  // ---------------------------------------------------------- formatNumber

  /**
   * The second piece of `s.split(".")`: the text between the first and the
   * second '.', or the rest of the string when there is no second '.'.
   * Only meaningful when `s` holds a '.'.
   */
  function FractionPiece(s: string): string {
    var i := IndexOfChar(s, '.');
    if i == |s| then "" else var rest := s[i + 1..]; rest[..IndexOfChar(rest, '.')]
  }

  /**
   * `formatNumber`: keeps the integer part and at most `decimals`
   * characters of the fractional part, truncating rather than rounding;
   * an absent or empty fractional part gives the integer part alone.
   */
  function FormatNumber(s: string, decimals: nat): (r: string)
    ensures r <= s
    ensures var i := IndexOfChar(s, '.');
      (i == |s| ==> r == s) &&
      (i < |s| && |FractionPiece(s)| == 0 ==> r == s[..i]) &&
      (i < |s| && |FractionPiece(s)| > 0 ==> |r| == i + 1 + Min(decimals, |FractionPiece(s)|))
  {
    var i := IndexOfChar(s, '.');
    var integer := s[..i];
    if i == |s| then integer
    else
      var rest := s[i + 1..];
      var fractional := rest[..IndexOfChar(rest, '.')];
      if |fractional| == 0 then integer
      else
        assert s[..i] + "." + fractional[..Min(decimals, |fractional|)] == s[..i + 1 + Min(decimals, |fractional|)];
        integer + "." + fractional[..Min(decimals, |fractional|)]
  }

  // ------------------------------------------------------- decimal numbers

  /** A decimal number as written: optional '-', integer digits, optional '.' and fraction digits. */
  datatype Decimal = Decimal(negative: bool, whole: string, fraction: string) {
    predicate Valid() {
      AllDigits(whole) && AllDigits(fraction) && |whole| > 0
    }
  }

  type Dec = d: Decimal | d.Valid() witness Decimal(false, "0", "")

  function Sign(negative: bool): string {
    if negative then "-" else ""
  }

  /** Sign, integer digits, then '.' and the fraction digits when `dot` holds. */
  function Shape(negative: bool, whole: string, fraction: string, dot: bool): string {
    Sign(negative) + whole + (if dot then "." + fraction else "")
  }

  /** The text `String(n)` gives for the number. */
  function Render(d: Decimal): string {
    Shape(d.negative, d.whole, d.fraction, |d.fraction| > 0)
  }

  /** The digits read as one integer: the magnitude times 10^|fraction|. */
  function Numerator(d: Dec): nat {
    DigitsValue(d.whole) * Pow10(|d.fraction|) + DigitsValue(d.fraction)
  }

  /** The fraction digits read after a decimal point: "25" is 0.25. */
  function FractionValue(f: string): (r: real)
    requires AllDigits(f)
    ensures 0.0 <= r < 1.0
  {
    if |f| == 0 then 0.0 else (DigitValue(f[0]) as real + FractionValue(f[1..])) / 10.0
  }

  /** The exact value, as the BigNumber comparisons of the validators see it. */
  function Value(d: Dec): real {
    var magnitude := DigitsValue(d.whole) as real + FractionValue(d.fraction);
    if d.negative then -magnitude else magnitude
  }

  // ------------------------------------------------------------- parseUnits

  /**
   * The fixed-point parser of the ethers library (`curve.parseUnits`):
   * accepts `-?[0-9]*(.[0-9]*)?` with at least one digit, rejects a
   * non-zero digit beyond `decimals` fractional places, and returns the
   * value scaled by 10^decimals.
   */
  function LibParseUnits(s: string, decimals: nat): Option<int> {
    ParseParts(HasMinus(s), WholePart(Unsigned(s)), FractionPart(Unsigned(s)), decimals)
  }

  predicate HasMinus(s: string) {
    |s| > 0 && s[0] == '-'
  }

  /** The text after a leading minus sign. */
  function Unsigned(s: string): string {
    if HasMinus(s) then s[1..] else s
  }

  /** The digits before the first '.'. */
  function WholePart(body: string): string {
    body[..IndexOfChar(body, '.')]
  }

  /** The digits after the first '.', if there is one. */
  function FractionPart(body: string): string {
    var dot := IndexOfChar(body, '.');
    if dot < |body| then body[dot + 1..] else ""
  }

  /** True when every fraction digit from place `decimals` on is '0'. */
  predicate NoDigitsBeyond(fraction: string, decimals: nat) {
    forall j :: decimals <= j < |fraction| ==> fraction[j] == '0'
  }

  /** The parser once sign, integer digits and fraction digits are split apart. */
  function ParseParts(negative: bool, whole: string, fraction: string, decimals: nat): Option<int> {
    if !AllDigits(whole) || !AllDigits(fraction) || |whole| + |fraction| == 0 then None
    else if !NoDigitsBeyond(fraction, decimals) then None
    else
      var kept := if |fraction| <= decimals then DigitsValue(fraction) * Pow10(decimals - |fraction|)
                  else DigitsValue(fraction[..decimals]);
      var magnitude := DigitsValue(whole) * Pow10(decimals) + kept;
      Some(Signed(negative, magnitude))
  }

  function Signed(negative: bool, magnitude: nat): int {
    if negative then 0 - magnitude else magnitude
  }

  /** `parseUnits`: truncate with `formatNumber`, then parse at the same precision. */
  function ParseUnits(s: string, decimals: nat): Option<int> {
    LibParseUnits(FormatNumber(s, decimals), decimals)
  }

  lemma {:induction false} AllDigitsNoChar(s: string, c: char)
    requires AllDigits(s) && !IsDigit(c)
    ensures forall j :: 0 <= j < |s| ==> s[j] != c
  {
  }

  /** A rendered number's first '.' follows the sign and integer digits, and the fraction digits follow it. */
  lemma RenderParts(d: Dec)
    ensures var s := Render(d);
      var i := IndexOfChar(s, '.');
      i == |Sign(d.negative) + d.whole| && s[..i] == Sign(d.negative) + d.whole &&
      (|d.fraction| == 0 ==> i == |s|) &&
      (|d.fraction| > 0 ==> i < |s| && s[i + 1..] == d.fraction && IndexOfChar(d.fraction, '.') == |d.fraction|)
  {
    var s := Render(d);
    var head := Sign(d.negative) + d.whole;
    var tail := if |d.fraction| > 0 then "." + d.fraction else "";
    assert s == head + tail;
    AllDigitsNoChar(d.whole, '.');
    assert forall j :: 0 <= j < |head| ==> head[j] != '.';
    IndexOfCharAppend(head, tail, '.');
    assert s[..|head|] == head;
    if |d.fraction| > 0 {
      DropAppend(head, tail, 1);
      AllDigitsNoChar(d.fraction, '.');
    }
  }

  /** Where `formatNumber` cuts a rendered number: it keeps min(k, |fraction|) fraction digits. */
  lemma FormatNumberOfRender(d: Dec, k: nat)
    ensures FormatNumber(Render(d), k) ==
      Shape(d.negative, d.whole, d.fraction[..Min(k, |d.fraction|)], |d.fraction| > 0)
  {
    RenderParts(d);
    if |d.fraction| > 0 {
      assert d.fraction[..|d.fraction|] == d.fraction;
    }
  }

  /** A shape splits back into its sign, integer digits and fraction digits. */
  lemma ShapeParts(negative: bool, whole: string, fraction: string, dot: bool)
    requires AllDigits(whole) && AllDigits(fraction) && |whole| > 0
    requires !dot ==> fraction == ""
    ensures var s := Shape(negative, whole, fraction, dot);
      HasMinus(s) == negative && WholePart(Unsigned(s)) == whole && FractionPart(Unsigned(s)) == fraction
  {
    var tail := if dot then "." + fraction else "";
    ShapeSign(negative, whole, tail);
    BodyParts(whole, fraction, dot);
  }

  lemma ShapeSign(negative: bool, whole: string, tail: string)
    requires AllDigits(whole) && |whole| > 0
    ensures var s := Sign(negative) + whole + tail;
      HasMinus(s) == negative && Unsigned(s) == whole + tail
  {
    var s := Sign(negative) + whole + tail;
    assert s == Sign(negative) + (whole + tail);
    if !negative {
      assert s[0] == whole[0];
    } else {
      assert s[1..] == whole + tail;
    }
  }

  lemma BodyParts(whole: string, fraction: string, dot: bool)
    requires AllDigits(whole) && AllDigits(fraction)
    requires !dot ==> fraction == ""
    ensures var body := whole + (if dot then "." + fraction else "");
      WholePart(body) == whole && FractionPart(body) == fraction
  {
    var tail := if dot then "." + fraction else "";
    var body := whole + tail;
    AllDigitsNoChar(whole, '.');
    IndexOfCharAppend(whole, tail, '.');
    var dotAt := IndexOfChar(body, '.');
    assert dotAt == |whole|;
    assert body[..dotAt] == whole;
    FractionPartAt(body, dotAt);
    if dot {
      DropAppend(whole, tail, 1);
      assert body[dotAt + 1..] == fraction;
    }
  }

  lemma FractionPartAt(body: string, i: nat)
    requires IndexOfChar(body, '.') == i
    ensures FractionPart(body) == if i < |body| then body[i + 1..] else ""
  {
  }

  /** Dropping past a prefix leaves a suffix of the rest. */
  lemma DropAppend<T>(a: seq<T>, b: seq<T>, n: nat)
    requires n <= |b|
    ensures (a + b)[|a| + n..] == b[n..]
  {
  }

  /** The ethers parser on a well-formed shape with no more than `k` fraction digits. */
  lemma LibParseUnitsOfShape(negative: bool, whole: string, fraction: string, dot: bool, k: nat)
    requires AllDigits(whole) && AllDigits(fraction) && |whole| > 0 && |fraction| <= k
    requires !dot ==> fraction == ""
    ensures LibParseUnits(Shape(negative, whole, fraction, dot), k) ==
      Some(Signed(negative, Assembled(whole, fraction, k)))
  {
    ShapeParts(negative, whole, fraction, dot);
    ParsePartsWithinPrecision(negative, whole, fraction, k);
  }

  /** What the parser builds from digits that fit the precision: whole * 10^k + fraction * 10^(k - |fraction|). */
  function Assembled(whole: string, fraction: string, k: nat): nat
    requires AllDigits(whole) && AllDigits(fraction) && |fraction| <= k
  {
    DigitsValue(whole) * Pow10(k) + DigitsValue(fraction) * Pow10(k - |fraction|)
  }

  lemma ParsePartsWithinPrecision(negative: bool, whole: string, fraction: string, k: nat)
    requires AllDigits(whole) && AllDigits(fraction) && |whole| > 0 && |fraction| <= k
    ensures ParseParts(negative, whole, fraction, k) ==
      Some(Signed(negative, Assembled(whole, fraction, k)))
  {
    assert NoDigitsBeyond(fraction, k);
  }

  lemma DivUnique(x: int, p: int, q: int, rem: int)
    requires p > 0 && 0 <= rem < p && x == q * p + rem
    ensures x / p == q
  {
    var q', r' := x / p, x % p;
    assert (q - q') * p == r' - rem;
    if q > q' {
      MulAtLeast(q - q', p);
      assert false;
    } else if q < q' {
      MulAtLeast(q' - q, p);
      assert false;
    }
  }

  lemma MulAtLeast(a: int, p: int)
    requires a >= 1 && p > 0
    ensures a * p >= p
  {
  }

  /** |x| * 10^k rounded down: Numerator * 10^k div 10^|fraction|. */
  function Truncated(d: Dec, k: nat): nat {
    var scaled := Numerator(d) * Pow10(k);
    NatProduct(Numerator(d), Pow10(k));
    scaled / Pow10(|d.fraction|)
  }

  lemma NatProduct(a: nat, b: nat)
    ensures a * b >= 0
  {
  }

  /**
   * `parseUnits` is exact truncation: on a rendered number it returns the
   * sign times floor(|x| * 10^k), that is Numerator * 10^k div 10^|fraction|.
   */
  lemma ParseUnitsIsTruncation(d: Dec, k: nat)
    ensures ParseUnits(Render(d), k) == Some(Signed(d.negative, Truncated(d, k)))
  {
    var K := |d.fraction|;
    var f := d.fraction[..Min(k, K)];
    FormatNumberOfRender(d, k);
    LibParseUnitsOfShape(d.negative, d.whole, f, K > 0, k);
    TruncatedMagnitude(d, k);
  }

  /** The magnitude the parser builds is Numerator * 10^k div 10^|fraction|. */
  lemma TruncatedMagnitude(d: Dec, k: nat)
    ensures Assembled(d.whole, d.fraction[..Min(k, |d.fraction|)], k) == Truncated(d, k)
  {
    if |d.fraction| <= k {
      assert d.fraction[..Min(k, |d.fraction|)] == d.fraction;
      ShortFractionMagnitude(d, k);
    } else {
      assert Min(k, |d.fraction|) == k;
      LongFractionMagnitude(d, k);
    }
  }

  lemma ShortFractionMagnitude(d: Dec, k: nat)
    requires |d.fraction| <= k
    ensures Assembled(d.whole, d.fraction, k) == Numerator(d) * Pow10(k) / Pow10(|d.fraction|)
  {
    var K := |d.fraction|;
    Pow10Add(k - K, K);
    ScaleExact(DigitsValue(d.whole), DigitsValue(d.fraction), Pow10(K), Pow10(k), Pow10(k - K));
  }

  lemma LongFractionMagnitude(d: Dec, k: nat)
    requires k < |d.fraction|
    ensures Assembled(d.whole, d.fraction[..k], k) == Numerator(d) * Pow10(k) / Pow10(|d.fraction|)
  {
    var K := |d.fraction|;
    var f, g := d.fraction[..k], d.fraction[k..];
    assert d.fraction == f + g;
    DigitsValueAppend(f, g);
    DigitsValueBound(g);
    Pow10Add(K - k, k);
    ScaleCut(DigitsValue(d.whole), DigitsValue(d.fraction), DigitsValue(f), DigitsValue(g), Pow10(K), Pow10(k), Pow10(K - k));
  }

  /** Fraction no longer than the precision: scaling is exact. */
  lemma ScaleExact(W: nat, F: nat, pK: nat, pk: nat, pkK: nat)
    requires pk == pkK * pK && pK > 0
    ensures (W * pK + F) * pk / pK == W * pk + F * pkK
  {
    calc {
      (W * pK + F) * pk;
      W * pK * (pkK * pK) + F * (pkK * pK);
      { assert W * pK * (pkK * pK) == W * (pkK * pK) * pK; }
      W * (pkK * pK) * pK + F * pkK * pK;
      (W * pk + F * pkK) * pK;
    }
    DivUnique((W * pK + F) * pk, pK, W * pk + F * pkK, 0);
  }

  /** Fraction longer than the precision: the cut digits leave a remainder below 10^K. */
  lemma ScaleCut(W: nat, F: nat, F': nat, G: nat, pK: nat, pk: nat, pKk: nat)
    requires pK == pKk * pk && F == F' * pKk + G && G < pKk && pk > 0
    ensures (W * pK + F) * pk / pK == W * pk + F'
  {
    calc {
      (W * pK + F) * pk;
      W * pK * pk + F' * (pKk * pk) + G * pk;
      { assert W * pK * pk == W * pk * pK; }
      W * pk * pK + F' * pK + G * pk;
      (W * pk + F') * pK + G * pk;
    }
    MulStrict(G, pKk, pk);
    DivUnique((W * pK + F) * pk, pK, W * pk + F', G * pk);
  }

  lemma MulStrict(a: nat, b: nat, c: nat)
    requires a < b && c > 0
    ensures a * c < b * c
  {
  }

  /**
   * `parseUnits(x, k)` of a number: the sign times the magnitude truncated
   * to k fractional digits and scaled by 10^k. It never fails on a number.
   */
  function Encode(d: Dec, k: nat): (r: int)
    ensures r == Signed(d.negative, Truncated(d, k))
  {
    ParseUnitsIsTruncation(d, k);
    ParseUnits(Render(d), k).value
  }

  // ------------------------------------------------- the value behind the digits

  /** The magnitude of a number: integer digits plus the fraction digits read after the point. */
  function Magnitude(d: Dec): (r: real)
    ensures r >= 0.0
    ensures Value(d) == if d.negative then -r else r
  {
    DigitsValue(d.whole) as real + FractionValue(d.fraction)
  }

  /** x * 10^n, written as n multiplications by ten so that every step stays linear. */
  ghost function Shift(x: real, n: nat): real {
    if n == 0 then x else Shift(x, n - 1) * 10.0
  }

  lemma {:induction false} ShiftAdd(x: real, y: real, n: nat)
    ensures Shift(x + y, n) == Shift(x, n) + Shift(y, n)
  {
    if n > 0 {
      ShiftAdd(x, y, n - 1);
    }
  }

  lemma {:induction false} ShiftTenth(x: real, n: nat)
    ensures Shift(x / 10.0, n + 1) == Shift(x, n)
  {
    if n > 0 {
      ShiftTenth(x, n - 1);
    }
  }

  lemma {:induction false} ShiftWhole(a: nat, n: nat)
    ensures Shift(a as real, n) == (a * Pow10(n)) as real
  {
    if n > 0 {
      ShiftWhole(a, n - 1);
      assert a * Pow10(n) == (a * Pow10(n - 1)) * 10;
    }
  }

  lemma {:induction false} ShiftCompose(x: real, m: nat, n: nat)
    ensures Shift(Shift(x, m), n) == Shift(x, m + n)
  {
    if n > 0 {
      ShiftCompose(x, m, n - 1);
    }
  }

  lemma {:induction false} ShiftMonotone(x: real, y: real, n: nat)
    ensures x <= y <==> Shift(x, n) <= Shift(y, n)
    ensures x < y <==> Shift(x, n) < Shift(y, n)
  {
    if n > 0 {
      ShiftMonotone(x, y, n - 1);
    }
  }

  /** Fraction digits shifted by |f| places are the digit string's integer value: "25" is 0.25 and 25. */
  lemma {:induction false} FractionValueShifted(f: string)
    requires AllDigits(f)
    ensures Shift(FractionValue(f), |f|) == DigitsValue(f) as real
  {
    if |f| > 0 {
      var rest := f[1..];
      var a, v := DigitValue(f[0]), FractionValue(rest);
      FractionValueShifted(rest);
      ShiftTenth(a as real + v, |rest|);
      ShiftAdd(a as real, v, |rest|);
      ShiftWhole(a, |rest|);
      assert f == [f[0]] + rest;
      DigitsValueAppend([f[0]], rest);
      assert DigitsValue([f[0]]) == a by {
        assert [f[0]][..0] == [];
      }
    }
  }

  /** The magnitude shifted by |fraction| places is the numerator: the digits read as one integer. */
  lemma MagnitudeShifted(d: Dec)
    ensures Shift(Magnitude(d), |d.fraction|) == Numerator(d) as real
  {
    var W, K := DigitsValue(d.whole), |d.fraction|;
    FractionValueShifted(d.fraction);
    ShiftAdd(W as real, FractionValue(d.fraction), K);
    ShiftWhole(W, K);
  }

  /**
   * `parseUnits(x, k)` truncates: the magnitude it returns is floor(|x| * 10^k),
   * the whole number t with t <= |x| * 10^k < t + 1.
   */
  lemma TruncatedIsFloor(d: Dec, k: nat)
    ensures var m := Shift(Magnitude(d), k);
      Truncated(d, k) as real <= m < Truncated(d, k) as real + 1.0
  {
    var N, K := Numerator(d), |d.fraction|;
    var t := Truncated(d, k);
    var m := Shift(Magnitude(d), k);
    NatProduct(N, Pow10(k));
    DivBounds(N * Pow10(k), Pow10(K), t);
    // m shifted by K more places is N shifted by k places
    ShiftCompose(Magnitude(d), k, K);
    ShiftCompose(Magnitude(d), K, k);
    MagnitudeShifted(d);
    ShiftWhole(N, k);
    // t and t + 1 shifted by K places bracket it
    ShiftWhole(t, K);
    ShiftWhole(t + 1, K);
    ShiftMonotone(t as real, m, K);
    ShiftMonotone(m, (t + 1) as real, K);
  }

  /**
   * `parseUnits(x, k)` of a number is its value shifted by k places and cut
   * toward zero: the result's magnitude is floor(|x| * 10^k) and its sign is x's.
   */
  lemma EncodeIsFloor(d: Dec, k: nat)
    ensures var r := Encode(d, k);
      var t := if d.negative then -r else r;
      t >= 0 && t as real <= Shift(Magnitude(d), k) < t as real + 1.0
  {
    TruncatedIsFloor(d, k);
  }

  /** t = n div p brackets n: t * p <= n < (t + 1) * p. */
  lemma DivBounds(n: nat, p: nat, t: nat)
    requires p > 0 && t == n / p
    ensures t * p <= n < (t + 1) * p
  {
  }

  /** A string with no integer digits is rejected at 0 decimals, where `formatNumber` leaves just ".". */
  lemma BareFractionRejected()
    ensures ParseUnits(".5", 0) == None
  {
    assert IndexOfChar(".5", '.') == 0;
    assert FormatNumber(".5", 0) == ".";
    assert IndexOfChar(".", '.') == 0;
  }

  // --------------------------------------------------------------- mulBy1_3

  /** `mulBy1_3`: the 30% gas margin, `n * 130n / 100n` with BigInt division truncating toward zero. */
  function MulBy1_3(n: int): int {
    if n >= 0 then n * 130 / 100 else -((-n) * 130 / 100)
  }

  /** The margin is 130/100 of the estimate, rounded toward zero, so never below a non-negative estimate. */
  lemma MulBy1_3Margin(n: int)
    ensures var r := MulBy1_3(n);
      (n >= 0 ==> 100 * r <= 130 * n < 100 * r + 100 && r >= n) &&
      (n < 0 ==> 100 * -r <= 130 * -n < 100 * -r + 100 && r <= n)
  {
  }
}
