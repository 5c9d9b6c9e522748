/**
 * The numeric side of the G-code text: `roundTo3Decimals` and the way the
 * resulting number is printed inside a template string.
 *
 * A number that has gone through `parseFloat(x.toFixed(3))` has at most three
 * decimals, so it is represented exactly here as an integer count of
 * thousandths (`1.5` is 1500, `-0.5` is -500). Floating-point error is not
 * modelled: the input `x` is the exact rational `num / den`.
 */
module NumberFormat {
  import opened Text

  function Abs(x: int): nat {
    if x < 0 then -x else x
  }

  /**
   * `parseFloat(x.toFixed(3))` for `x == num / den`, in thousandths.
   * `toFixed` strips the sign, picks the thousandth nearest to the magnitude
   * (the larger one on a tie) and puts the sign back.
   */
  function RoundTo3Decimals(num: int, den: int): int
    requires den > 0
  {
    var q := (2000 * Abs(num) + den) / (2 * den);
    if num < 0 then -q else q
  }

  /**
   * The rounding picks the thousandth nearest to `|num / den|`, the larger
   * one on a tie, and keeps the sign.
   */
  lemma RoundsToNearestThousandth(num: int, den: int)
    requires den > 0
    ensures var k := RoundTo3Decimals(num, den);
            && 2 * den * Abs(k) <= 2000 * Abs(num) + den < 2 * den * (Abs(k) + 1)
            && (num >= 0 ==> k >= 0) && (num <= 0 ==> k <= 0)
  {
    var total := 2000 * Abs(num) + den;
    var q := total / (2 * den);
    assert total == (2 * den) * q + total % (2 * den);
  }

  /** Any multiple of one half comes out of the rounding unchanged. */
  lemma HalfUnitsSurviveRounding(n: int)
    ensures RoundTo3Decimals(n, 2) == 500 * n
  {
    var k := RoundTo3Decimals(n, 2);
    RoundsToNearestThousandth(n, 2);
    assert 4 * Abs(k) <= 2000 * Abs(n) + 2 < 4 * (Abs(k) + 1);
    assert Abs(k) == 500 * Abs(n);
  }

  /** The decimals of a fraction `f / 1000`, without trailing zeros. */
  function FractionDigits(f: nat): (s: string)
    requires 0 < f < 1000
    ensures 1 <= |s| <= 3 && AllDigits(s) && s[|s| - 1] != '0'
  {
    var d1, d2, d3 := f / 100, f / 10 % 10, f % 10;
    if d3 != 0 then [DigitChar(d1), DigitChar(d2), DigitChar(d3)]
    else if d2 != 0 then [DigitChar(d1), DigitChar(d2)]
    else [DigitChar(d1)]
  }

  /** The integer part of `m / 1000`, then its nonzero decimals after a point. */
  function MagnitudeText(m: nat): string {
    if m % 1000 == 0 then NatToString(m / 1000)
    else NatToString(m / 1000) + "." + FractionDigits(m % 1000)
  }

  /**
   * How a template string prints the number `k / 1000`: a minus sign for a
   * negative value, then the magnitude.
   */
  function RenderNumber(k: int): string {
    (if k < 0 then "-" else "") + MagnitudeText(Abs(k))
  }

  /** The printed text is never empty and never contains a space. */
  lemma RenderNumberHasNoSpace(k: int)
    ensures var s := RenderNumber(k);
            |s| > 0 && forall i :: 0 <= i < |s| ==> s[i] != ' '
  {
  }

  /**
   * The printed form of `n / 2` stated directly: sign, `|n| / 2`, then `.5`
   * when `n` is odd (`1`, `-3`, `1.5`, `-0.5`, `0`).
   */
  function RenderHalfUnits(n: int): string {
    (if n < 0 then "-" else "") + NatToString(Abs(n) / 2) + (if Abs(n) % 2 == 1 then ".5" else "")
  }

  /** A rounded multiple of one half prints as the half-unit form says. */
  lemma RenderHalfUnitsAgrees(n: int)
    ensures RenderNumber(RoundTo3Decimals(n, 2)) == RenderHalfUnits(n)
  {
    HalfUnitsSurviveRounding(n);
    var m := Abs(500 * n);
    assert m == 500 * Abs(n);
    assert m / 1000 == Abs(n) / 2 && m % 1000 == 500 * (Abs(n) % 2) by {
      var h := Abs(n) / 2;
      assert Abs(n) == 2 * h + Abs(n) % 2;
      assert m == 1000 * h + 500 * (Abs(n) % 2);
    }
    if Abs(n) % 2 == 1 {
      assert FractionDigits(500) == "5";
    }
  }

  /** The value of the decimals `s` after a point, in thousandths. */
  function ParseFraction(s: string): (f: nat)
    requires 1 <= |s| <= 3 && AllDigits(s)
    ensures f < 1000
  {
    if |s| == 1 then 100 * DigitValue(s[0])
    else if |s| == 2 then 100 * DigitValue(s[0]) + 10 * DigitValue(s[1])
    else 100 * DigitValue(s[0]) + 10 * DigitValue(s[1]) + DigitValue(s[2])
  }

  function Signed(negative: bool, m: nat): int {
    var v: int := m;
    if negative then -v else v
  }

  /** Reads back digits, optionally followed by a point and one to three digits, in thousandths. */
  function ParseMagnitude(body: string): Option<nat> {
    var dot := IndexOf(body, '.');
    var whole := body[..dot];
    if |whole| == 0 || !AllDigits(whole) then None
    else if dot == |body| then Some(1000 * ParseNat(whole))
    else
      var decimals := body[dot + 1..];
      if 1 <= |decimals| <= 3 && AllDigits(decimals)
      then Some(1000 * ParseNat(whole) + ParseFraction(decimals))
      else None
  }

  /** Reads back a number printed with an optional minus sign, in thousandths. */
  function ParseNumber(s: string): Option<int> {
    var negative := |s| > 0 && s[0] == '-';
    match ParseMagnitude(if negative then s[1..] else s)
    case None => None
    case Some(m) => Some(Signed(negative, m))
  }

  lemma FractionRoundTrip(f: nat)
    requires 0 < f < 1000
    ensures ParseFraction(FractionDigits(f)) == f
  {
    assert f == 100 * (f / 100) + 10 * (f / 10 % 10) + f % 10;
  }

  lemma DotAfterDigits(whole: string, rest: string)
    requires AllDigits(whole)
    requires rest == "" || rest[0] == '.'
    ensures IndexOf(whole + rest, '.') == |whole|
  {
    var body := whole + rest;
    if rest != "" {
      assert body[|whole|] == '.';
    }
    assert forall j :: 0 <= j < |whole| ==> body[j] == whole[j];
  }

  lemma ParseMagnitudeWhole(whole: string)
    requires |whole| > 0 && AllDigits(whole)
    ensures ParseMagnitude(whole) == Some(1000 * ParseNat(whole))
  {
    DotAfterDigits(whole, "");
    assert whole + "" == whole;
  }

  /** Where the point sits in digits, a point and decimals, and what lies on either side of it. */
  lemma DotSplit(whole: string, decimals: string)
    requires AllDigits(whole)
    ensures var body := whole + "." + decimals;
            && IndexOf(body, '.') == |whole| < |body|
            && body[..|whole|] == whole && body[|whole| + 1..] == decimals
  {
    var body := whole + "." + decimals;
    assert body == whole + ("." + decimals);
    DotAfterDigits(whole, "." + decimals);
    assert body[..|whole|] == whole;
    assert body[|whole| + 1..] == decimals;
  }

  lemma ParseMagnitudeDecimals(whole: string, decimals: string)
    requires |whole| > 0 && AllDigits(whole)
    requires 1 <= |decimals| <= 3 && AllDigits(decimals)
    ensures ParseMagnitude(whole + "." + decimals) == Some(1000 * ParseNat(whole) + ParseFraction(decimals))
  {
    var body := whole + "." + decimals;
    DotSplit(whole, decimals);
    var dot := IndexOf(body, '.');
    assert body[..dot] == whole && body[dot + 1..] == decimals;
  }

  /** Reading a number assembled from a sign and a magnitude. */
  lemma ParseNumberSigned(negative: bool, body: string, m: nat)
    requires |body| > 0 && IsDigit(body[0])
    requires ParseMagnitude(body) == Some(m)
    ensures ParseNumber((if negative then "-" else "") + body) == Some(Signed(negative, m))
  {
    var s := (if negative then "-" else "") + body;
    if negative {
      assert s[1..] == body;
    } else {
      assert s == body;
    }
  }

  /** The printed magnitude starts with a digit and reads back as itself. */
  lemma MagnitudeRoundTrip(m: nat)
    ensures var s := MagnitudeText(m);
            |s| > 0 && IsDigit(s[0]) && ParseMagnitude(s) == Some(m)
  {
    var whole := NatToString(m / 1000);
    ParseNatToString(m / 1000);
    assert m == 1000 * (m / 1000) + m % 1000;
    if m % 1000 == 0 {
      ParseMagnitudeWhole(whole);
    } else {
      var decimals := FractionDigits(m % 1000);
      ParseMagnitudeDecimals(whole, decimals);
      FractionRoundTrip(m % 1000);
    }
  }

  /** Printing loses nothing: the printed text reads back as the same number. */
  lemma RenderNumberRoundTrip(k: int)
    ensures ParseNumber(RenderNumber(k)) == Some(k)
  {
    MagnitudeRoundTrip(Abs(k));
    ParseNumberSigned(k < 0, MagnitudeText(Abs(k)), Abs(k));
  }
}
