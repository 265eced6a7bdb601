/** How amounts and timestamps become element text: `_decimal_to_text` (quantize
    to a fixed number of places with ROUND_HALF_UP, `normalize()`, then `"f"`
    formatting) and `_datetime_to_text` (`isoformat(timespec="seconds")`).
    Amounts are exact decimals, modelled as reals. */
module DecimalText {
  import opened Wrappers
  import opened Text
  import opened Models

  function Abs(x: real): real { if x < 0.0 then -x else x }

  lemma {:induction false} Pow10Add(a: nat, b: nat)
    ensures Pow10(a + b) == Pow10(a) * Pow10(b)
  {
    if b > 0 {
      Pow10Add(a, b - 1);
      assert Pow10(a + b) == 10 * Pow10(a + b - 1);
    }
  }

  // ---------------------------------------------------------------------------
  // Rounding
  // ---------------------------------------------------------------------------

  lemma ProductNonNegative(a: real, b: real)
    requires a >= 0.0 && b >= 0.0
    ensures a * b >= 0.0
  {
  }

  /** The coefficient `quantize` keeps: |v|·10^places rounded to an integer, with a
      tie going to the larger magnitude (ROUND_HALF_UP rounds ties away from zero). */
  function ScaledMagnitude(v: real, places: nat): nat
  {
    ProductNonNegative(Abs(v), Pow10(places) as real);
    (Abs(v) * (Pow10(places) as real) + 0.5).Floor
  }

  /** The coefficient is the integer nearest to |v|·10^places, a tie taking the larger. */
  lemma ScaledMagnitudeNearest(v: real, places: nat)
    ensures var n := ScaledMagnitude(v, places) as real;
      n - 0.5 <= Abs(v) * (Pow10(places) as real) < n + 0.5
  {
    ProductNonNegative(Abs(v), Pow10(places) as real);
    FloorOfHalfUp(Abs(v) * (Pow10(places) as real));
  }

  lemma FloorOfHalfUp(x: real)
    requires x >= 0.0
    ensures var n := (x + 0.5).Floor as real; n - 0.5 <= x < n + 0.5
  {
  }

  /** The value `quantize(Decimal(10) ** -places, rounding=ROUND_HALF_UP)` returns. */
  function Quantize(v: real, places: nat): real
  {
    SignedQuotient(v < 0.0, ScaledMagnitude(v, places) as real, Pow10(places) as real)
  }

  /** n / p, negated when `negative`. */
  function SignedQuotient(negative: bool, n: real, p: real): real
    requires p > 0.0
  {
    if negative then -(n / p) else n / p
  }

  lemma MulDivCancel(a: real, p: real)
    requires p > 0.0
    ensures (a * p) / p == a
  {
  }

  lemma DivDifference(n: real, x: real, p: real)
    requires p > 0.0 && n - 0.5 <= x < n + 0.5
    ensures -0.5 / p < n / p - x / p <= 0.5 / p
  {
    assert n / p - x / p == (n - x) / p;
  }

  /** The sign-and-magnitude step of the rounding argument, on plain reals. */
  lemma SignedHalfUnit(v: real, q: real, a: real, b: real, h: real)
    requires b == Abs(v) && a >= 0.0 && -h < a - b <= h
    requires q == (if v < 0.0 then -a else a)
    ensures Abs(q - v) <= h
    ensures (v >= 0.0 ==> q >= 0.0) && (v < 0.0 ==> q <= 0.0)
  {
  }

  /** The quantized value is within half a unit of the last place of the input and
      has the input's sign. */
  lemma QuantizeIsHalfUp(v: real, places: nat)
    ensures Abs(Quantize(v, places) - v) <= 0.5 / (Pow10(places) as real)
    ensures (v >= 0.0 ==> Quantize(v, places) >= 0.0) && (v <= 0.0 ==> Quantize(v, places) <= 0.0)
  {
    ScaledMagnitudeNearest(v, places);
    HalfUpOnPlainReals(v, Pow10(places) as real, ScaledMagnitude(v, places) as real);
    if v == 0.0 {
      assert ScaledMagnitude(v, places) == 0;
    }
  }

  lemma HalfUpOnPlainReals(v: real, p: real, n: real)
    requires p > 0.0 && n >= 0.0 && n - 0.5 <= Abs(v) * p < n + 0.5
    ensures var q := SignedQuotient(v < 0.0, n, p);
      Abs(q - v) <= 0.5 / p && (v >= 0.0 ==> q >= 0.0) && (v < 0.0 ==> q <= 0.0)
  {
    MulDivCancel(Abs(v), p);
    DivDifference(n, Abs(v) * p, p);
    SignedHalfUnit(v, SignedQuotient(v < 0.0, n, p), n / p, (Abs(v) * p) / p, 0.5 / p);
  }

  /** A value exactly halfway between two neighbours is moved away from zero. */
  lemma QuantizeTieAwayFromZero(v: real, places: nat)
    requires Abs(v) * (Pow10(places) as real) + 0.5 == (ScaledMagnitude(v, places) as real)
    ensures Abs(Quantize(v, places)) > Abs(v)
  {
    TieOnPlainReals(v, Pow10(places) as real, ScaledMagnitude(v, places) as real);
  }

  lemma TieOnPlainReals(v: real, p: real, n: real)
    requires p > 0.0 && Abs(v) * p + 0.5 == n
    ensures Abs(SignedQuotient(v < 0.0, n, p)) > Abs(v)
  {
    MulDivCancel(Abs(v), p);
    DivStrict(Abs(v) * p, n, p);
  }

  lemma DivStrict(a: real, b: real, p: real)
    requires p > 0.0 && a < b
    ensures a / p < b / p
  {
  }

  lemma AbsScaled(v: real, p: real, m: real)
    requires p > 0.0 && v * p == m
    ensures Abs(v) * p == Abs(m)
  {
    if v < 0.0 { assert (-v) * p == -(v * p); }
  }

  lemma NearestInteger(n: int, k: int)
    requires (n as real) - 0.5 <= k as real < (n as real) + 0.5
    ensures n == k
  {
  }

  lemma ExactOnPlainReals(v: real, p: real, n: int, m: int)
    requires p > 0.0 && v * p == m as real
    requires (n as real) - 0.5 <= Abs(v) * p < (n as real) + 0.5
    ensures SignedQuotient(v < 0.0, n as real, p) == v
  {
    var k: int := if m < 0 then -m else m;
    AbsScaled(v, p, m as real);
    NearestInteger(n, k);
    MulDivCancel(Abs(v), p);
    assert (n as real) / p == (Abs(v) * p) / p;
  }

  /** A value with no more than `places` fraction digits comes through unchanged. */
  lemma QuantizeExact(v: real, places: nat, m: int)
    requires v * (Pow10(places) as real) == m as real
    ensures Quantize(v, places) == v
  {
    ScaledMagnitudeNearest(v, places);
    ExactOnPlainReals(v, Pow10(places) as real, ScaledMagnitude(v, places), m);
  }

  // ---------------------------------------------------------------------------
  // Formatting
  // ---------------------------------------------------------------------------

  /** `normalize()` on the fraction digits: drop the zeros at the end. */
  function StripTrailingZeros(s: string): (r: string)
    ensures |r| <= |s| && r == s[..|r|]
    ensures forall i :: |r| <= i < |s| ==> s[i] == '0'
    ensures r == [] || r[|r| - 1] != '0'
  {
    if s == [] || s[|s| - 1] != '0' then s else StripTrailingZeros(s[..|s| - 1])
  }

  /** The fraction digits printed after the point: the remainder padded to `places`
      digits, then stripped of trailing zeros. */
  function FractionDigits(frac: nat, places: nat): string
  {
    StripTrailingZeros(ZFill(NatToString(frac), places))
  }

  lemma DivModNat(n: nat, d: nat)
    requires d >= 1
    ensures n / d >= 0 && 0 <= n % d < d && n == (n / d) * d + n % d
  {
  }

  /** The unsigned part of the text: the integer digits and, when the remainder is not
      zero, '.' and the fraction digits. */
  function UnsignedText(n: nat, places: nat): string
  {
    DivModNat(n, Pow10(places));
    PointText(n / Pow10(places), n % Pow10(places), places)
  }

  /** The integer digits of `whole` and, when `frac` is not zero, '.' and its
      fraction digits. */
  function PointText(whole: nat, frac: nat, places: nat): string
  {
    if frac == 0 then NatToString(whole) else NatToString(whole) + "." + FractionDigits(frac, places)
  }

  /** `_decimal_to_text(value, places=places)` */
  function DecimalToText(v: real, places: nat): string
  {
    (if v < 0.0 then "-" else "") + UnsignedText(ScaledMagnitude(v, places), places)
  }

  // ---------------------------------------------------------------------------
  // Reading decimal text back
  // ---------------------------------------------------------------------------

  /** The value of an unsigned decimal literal `digits` or `digits.digits`. */
  function ReadUnsigned(t: string): Option<real>
  {
    var parts := Split(t, '.');
    if |parts| == 1 && parts[0] != "" && IsDigits(parts[0]) then
      Some(DigitsValue(parts[0]) as real)
    else if |parts| == 2 && parts[0] != "" && parts[1] != "" && IsDigits(parts[0]) && IsDigits(parts[1]) then
      Some(PointValue(parts[0], parts[1]))
    else None
  }

  /** The value of `w.g` for digit strings w and g. */
  function PointValue(w: string, g: string): real
    requires IsDigits(w) && IsDigits(g)
  {
    DigitsValue(w) as real + (DigitsValue(g) as real) / (Pow10(|g|) as real)
  }

  /** The value a plain decimal literal with an optional leading '-' denotes. */
  function ReadDecimal(t: string): Option<real>
  {
    if |t| > 0 && t[0] == '-' then
      match ReadUnsigned(t[1..])
      case Some(x) => Some(-x)
      case None => None
    else ReadUnsigned(t)
  }

  lemma {:induction false} TrailingZerosValue(g: string, k: nat)
    requires IsDigits(g)
    ensures IsDigits(g + Repeat('0', k)) && DigitsValue(g + Repeat('0', k)) == DigitsValue(g) * Pow10(k)
  {
    if k > 0 {
      TrailingZerosValue(g, k - 1);
      var shorter := g + Repeat('0', k - 1);
      assert g + Repeat('0', k) == shorter + ['0'];
      DigitsValueSnoc(shorter, '0');
      ShiftByTen(DigitsValue(g), Pow10(k - 1));
    } else {
      assert g + Repeat('0', 0) == g;
    }
  }

  lemma ShiftByTen(x: nat, y: nat)
    ensures 10 * (x * y) == x * (10 * y)
  {
  }

  lemma CancelCommonFactor(d: nat, pg: nat, pk: nat, frac: nat, pp: nat)
    requires pg >= 1 && pk >= 1 && frac == d * pk && pp == pg * pk
    ensures (d as real) / (pg as real) == (frac as real) / (pp as real)
  {
    NatProductAsReal(d, pk);
    NatProductAsReal(pg, pk);
    CancelOnPlainReals(d as real, pg as real, pk as real);
  }

  lemma NatProductAsReal(a: nat, b: nat)
    ensures ((a * b) as real) == (a as real) * (b as real)
  {
  }

  lemma CancelOnPlainReals(d: real, pg: real, pk: real)
    requires pg > 0.0 && pk > 0.0
    ensures d / pg == (d * pk) / (pg * pk)
  {
  }

  /** The remainder padded to `places` digits still spells the remainder. */
  lemma PaddedRemainder(frac: nat, places: nat)
    requires 0 < frac < Pow10(places)
    ensures var f := ZFill(NatToString(frac), places);
      |f| == places && IsDigits(f) && DigitsValue(f) == frac
  {
    var s := NatToString(frac);
    NatToStringLength(frac, places);
    assert |s| <= places;
    var f := ZFill(s, places);
    assert |f| == Max(places, |s|);
    assert IsDigits(f) && DigitsValue(f) == DigitsValue(s);
  }

  /** The fraction digits are 1 to `places` digits long and do not end in '0'. */
  lemma FractionDigitsShape(frac: nat, places: nat)
    requires 0 < frac < Pow10(places)
    ensures var g := FractionDigits(frac, places);
      1 <= |g| <= places && IsDigits(g) && g[|g| - 1] != '0' && '.' !in g
  {
    var f := ZFill(NatToString(frac), places);
    PaddedRemainder(frac, places);
    StrippedShape(f);
    assert FractionDigits(frac, places) == StripTrailingZeros(f);
  }

  lemma StrippedShape(f: string)
    requires IsDigits(f) && DigitsValue(f) > 0
    ensures var g := StripTrailingZeros(f);
      1 <= |g| <= |f| && IsDigits(g) && g[|g| - 1] != '0' && '.' !in g
  {
    StrippedDigits(f);
    DigitsHaveNoPoint(StripTrailingZeros(f));
  }

  /** The fraction digits, read as a fraction, are worth frac / 10^places. */
  lemma FractionDigitsValue(frac: nat, places: nat)
    requires 0 < frac < Pow10(places)
    ensures var g := FractionDigits(frac, places);
      && IsDigits(g)
      && (DigitsValue(g) as real) / (Pow10(|g|) as real) == (frac as real) / (Pow10(places) as real)
  {
    var f := ZFill(NatToString(frac), places);
    PaddedRemainder(frac, places);
    StrippedDigits(f);
    var g := FractionDigits(frac, places);
    PaddedFractionValue(g, places - |g|, frac, places);
  }

  /** Stripping the trailing zeros of a digit string leaves digits that, padded back
      with zeros, give the string again; nothing is left only when it was worth 0. */
  lemma StrippedDigits(f: string)
    requires IsDigits(f)
    ensures var g := StripTrailingZeros(f);
      && IsDigits(g) && f == g + Repeat('0', |f| - |g|)
      && IsDigits(g + Repeat('0', |f| - |g|))
      && (g == [] ==> DigitsValue(f) == 0)
  {
    var g := StripTrailingZeros(f);
    var z := Repeat('0', |f| - |g|);
    assert f == g + z;
    assert IsDigits(g) by {
      forall i | 0 <= i < |g| ensures IsDigit(g[i]) { assert g[i] == f[i]; }
    }
    if g == [] {
      ZerosValue(|f|);
      assert f == Repeat('0', |f|);
    }
  }

  /** Digits followed by k zeros, worth `frac` as a digit string, are worth
      frac / 10^places as a fraction once the zeros are dropped. */
  lemma PaddedFractionValue(g: string, k: nat, frac: nat, places: nat)
    requires IsDigits(g) && |g| + k == places
    requires IsDigits(g + Repeat('0', k)) && DigitsValue(g + Repeat('0', k)) == frac
    ensures (DigitsValue(g) as real) / (Pow10(|g|) as real) == (frac as real) / (Pow10(places) as real)
  {
    TrailingZerosValue(g, k);
    Pow10Add(|g|, k);
    CancelCommonFactor(DigitsValue(g), Pow10(|g|), Pow10(k), frac, Pow10(places));
  }

  lemma SplitQuotient(n: nat, whole: nat, frac: nat, pp: nat)
    requires pp >= 1 && n == whole * pp + frac
    ensures (n as real) / (pp as real) == (whole as real) + (frac as real) / (pp as real)
  {
    assert (n as real) == (whole as real) * (pp as real) + (frac as real);
  }

  lemma DigitsHaveNoPoint(w: string)
    requires IsDigits(w)
    ensures '.' !in w
  {
    forall i | 0 <= i < |w| ensures w[i] != '.' {
      assert IsDigit(w[i]);
    }
  }

  lemma ReadWholeNumber(w: string, x: real)
    requires w != "" && IsDigits(w) && x == DigitsValue(w) as real
    ensures ReadUnsigned(w) == Some(x)
  {
    DigitsHaveNoPoint(w);
    SplitWithoutSeparator(w, '.');
  }

  lemma ReadPointNumber(w: string, g: string, x: real)
    requires w != "" && g != "" && IsDigits(w) && IsDigits(g) && x == PointValue(w, g)
    ensures ReadUnsigned(w + "." + g) == Some(x)
  {
    DigitsHaveNoPoint(w);
    DigitsHaveNoPoint(g);
    SplitTwo(w, '.', g);
  }

  lemma ZeroOver(p: real)
    requires p > 0.0
    ensures 0.0 / p == 0.0
  {
  }

  lemma UnsignedTextReads(n: nat, places: nat)
    ensures ReadUnsigned(UnsignedText(n, places)) == Some((n as real) / (Pow10(places) as real))
    ensures UnsignedText(n, places)[0] != '-'
  {
    DivModNat(n, Pow10(places));
    var whole, frac := n / Pow10(places), n % Pow10(places);
    assert UnsignedText(n, places) == PointText(whole, frac, places);
    SplitQuotient(n, whole, frac, Pow10(places));
    PointTextReads(whole, frac, places, (n as real) / (Pow10(places) as real));
  }

  /** `x` is the value whole + frac / 10^places the text stands for. */
  lemma PointTextReads(whole: nat, frac: nat, places: nat, x: real)
    requires frac < Pow10(places)
    requires x == (whole as real) + (frac as real) / (Pow10(places) as real)
    ensures ReadUnsigned(PointText(whole, frac, places)) == Some(x)
    ensures PointText(whole, frac, places)[0] != '-'
  {
    var w := NatToString(whole);
    assert IsDigit(w[0]);
    if frac == 0 {
      assert PointText(whole, frac, places) == w;
      ZeroOver(Pow10(places) as real);
      ReadWholeNumber(w, x);
    } else {
      var g := FractionDigits(frac, places);
      assert PointText(whole, frac, places) == w + "." + g;
      FractionDigitsShape(frac, places);
      FractionDigitsValue(frac, places);
      ReadPointNumber(w, g, x);
    }
  }

  /** Reading the text back gives exactly the quantized value. */
  lemma DecimalTextDenotes(v: real, places: nat)
    ensures ReadDecimal(DecimalToText(v, places)) == Some(Quantize(v, places))
  {
    var n := ScaledMagnitude(v, places);
    var u := UnsignedText(n, places);
    UnsignedTextReads(n, places);
    var t := DecimalToText(v, places);
    if v < 0.0 {
      assert t == "-" + u && t[1..] == u;
    } else {
      assert t == u;
    }
  }

  /** The unsigned part splits at its '.' into the integer digits and, only when there
      is a remainder, the fraction digits (which `FractionDigitsValue` describes). */
  lemma PointTextLayout(whole: nat, frac: nat, places: nat)
    requires frac < Pow10(places)
    ensures frac == 0 ==> Split(PointText(whole, frac, places), '.') == [NatToString(whole)]
    ensures frac != 0 ==>
      Split(PointText(whole, frac, places), '.') == [NatToString(whole), FractionDigits(frac, places)]
  {
    var w := NatToString(whole);
    DigitsHaveNoPoint(w);
    if frac == 0 {
      SplitWithoutSeparator(w, '.');
    } else {
      FractionDigitsShape(frac, places);
      SplitTwo(w, '.', FractionDigits(frac, places));
    }
  }

  /** The unsigned part starts with a digit and holds nothing but digits and '.'. */
  lemma PointTextCharset(whole: nat, frac: nat, places: nat)
    requires frac < Pow10(places)
    ensures var u := PointText(whole, frac, places);
      |u| >= 1 && IsDigit(u[0]) && forall i :: 0 <= i < |u| ==> IsDigit(u[i]) || u[i] == '.'
  {
    var w := NatToString(whole);
    assert IsDigit(w[0]);
    if frac != 0 {
      FractionDigitsShape(frac, places);
      PointTextChars(w, FractionDigits(frac, places));
    }
  }

  lemma UnsignedTextCharset(n: nat, places: nat)
    ensures var u := UnsignedText(n, places);
      |u| >= 1 && IsDigit(u[0]) && forall i :: 0 <= i < |u| ==> IsDigit(u[i]) || u[i] == '.'
  {
    DivModNat(n, Pow10(places));
    assert UnsignedText(n, places) == PointText(n / Pow10(places), n % Pow10(places), places);
    PointTextCharset(n / Pow10(places), n % Pow10(places), places);
  }

  lemma PointTextChars(w: string, g: string)
    requires IsDigits(w) && IsDigits(g)
    ensures forall i :: 0 <= i < |w + "." + g| ==> IsDigit((w + "." + g)[i]) || (w + "." + g)[i] == '.'
  {
    forall i | 0 <= i < |w + "." + g|
      ensures IsDigit((w + "." + g)[i]) || (w + "." + g)[i] == '.'
    {
      if i < |w| { assert (w + "." + g)[i] == w[i]; }
      else if i > |w| { assert (w + "." + g)[i] == g[i - |w| - 1]; }
    }
  }

  /** The text is a plain literal: a leading '-' exactly when the value is negative,
      then the unsigned part (laid out as `PointTextLayout` states), and no characters
      other than digits, one '.' and that sign: in particular never an exponent. */
  lemma DecimalTextShape(v: real, places: nat)
    ensures var t := DecimalToText(v, places);
      && |t| >= 1 && (t[0] == '-' <==> v < 0.0)
      && (if v < 0.0 then t[1..] else t) == UnsignedText(ScaledMagnitude(v, places), places)
      && (forall i :: 0 <= i < |t| ==> IsDigit(t[i]) || t[i] == '.' || (i == 0 && t[i] == '-'))
  {
    UnsignedTextCharset(ScaledMagnitude(v, places), places);
    SignedText(v < 0.0, UnsignedText(ScaledMagnitude(v, places), places));
  }

  /** End to end: the text has a '.' exactly when the rounded coefficient is not a
      whole multiple of 10^places (the quantized value is not whole), and then the
      digits after that single '.' number 1 to `places` and the text does not end in
      '0': the trailing zeros `normalize()` removes never reach the document. */
  lemma DecimalTextNormalised(v: real, places: nat)
    ensures var t := DecimalToText(v, places);
      && ('.' in t <==> ScaledMagnitude(v, places) % Pow10(places) != 0)
      && ('.' in t ==>
            var parts := Split(if v < 0.0 then t[1..] else t, '.');
            && |parts| == 2 && 1 <= |parts[1]| <= places
            && t[|t| - 1] != '0')
  {
    var n := ScaledMagnitude(v, places);
    DivModNat(n, Pow10(places));
    var u := UnsignedText(n, places);
    assert u == PointText(n / Pow10(places), n % Pow10(places), places);
    PointTextNormalised(n / Pow10(places), n % Pow10(places), places);
    SignKeepsPoint(v < 0.0, u);
  }

  /** The unsigned part has a '.' exactly when there is a remainder, and then it splits
      into two parts, the second 1 to `places` digits long, and does not end in '0'. */
  lemma PointTextNormalised(whole: nat, frac: nat, places: nat)
    requires frac < Pow10(places)
    ensures var u := PointText(whole, frac, places);
      && |u| >= 1 && ('.' in u <==> frac != 0)
      && (frac != 0 ==>
            var parts := Split(u, '.');
            |parts| == 2 && 1 <= |parts[1]| <= places && u[|u| - 1] != '0')
  {
    if frac == 0 {
      DigitsHaveNoPoint(NatToString(whole));
    } else {
      FractionTextNormalised(whole, frac, places);
    }
  }

  lemma FractionTextNormalised(whole: nat, frac: nat, places: nat)
    requires 0 < frac < Pow10(places)
    ensures var u := PointText(whole, frac, places);
      var parts := Split(u, '.');
      && '.' in u && |parts| == 2 && 1 <= |parts[1]| <= places && u[|u| - 1] != '0'
  {
    var w, g := NatToString(whole), FractionDigits(frac, places);
    FractionDigitsShape(frac, places);
    var u := PointText(whole, frac, places);
    assert u == w + "." + g;
    PointTextLayout(whole, frac, places);
    assert Split(u, '.') == [w, g];
    JoinedAtPoint(w, g);
  }

  lemma JoinedAtPoint(w: string, g: string)
    requires |g| >= 1
    ensures var u := w + "." + g; '.' in u && u[|u| - 1] == g[|g| - 1]
  {
    var u := w + "." + g;
    assert u[|w|] == '.';
  }

  /** A leading '-' adds no '.' and leaves the last character as it was. */
  lemma SignKeepsPoint(negative: bool, u: string)
    requires |u| >= 1
    ensures var t := (if negative then "-" else "") + u;
      && (if negative then t[1..] else t) == u
      && ('.' in t <==> '.' in u) && t[|t| - 1] == u[|u| - 1]
  {
    var t := (if negative then "-" else "") + u;
    if negative {
      assert t[1..] == u;
      assert t == ['-'] + u;
    } else {
      assert t == u;
    }
  }

  lemma SignedText(negative: bool, u: string)
    requires |u| >= 1 && IsDigit(u[0]) && forall i :: 0 <= i < |u| ==> IsDigit(u[i]) || u[i] == '.'
    ensures var t := (if negative then "-" else "") + u;
      && |t| >= 1 && (t[0] == '-' <==> negative) && (if negative then t[1..] else t) == u
      && (forall i :: 0 <= i < |t| ==> IsDigit(t[i]) || t[i] == '.' || (i == 0 && t[i] == '-'))
  {
    var t := (if negative then "-" else "") + u;
    if negative {
      assert t[1..] == u;
      assert forall i :: 1 <= i < |t| ==> t[i] == u[i - 1];
    } else {
      assert t == u;
    }
  }

  /** The examples of the builder's own test: 13 gives "13" and 113.00 gives "113". */
  lemma DecimalTextWholeExamples()
    ensures DecimalToText(13.0, 5) == "13"
    ensures DecimalToText(113.00, 5) == "113"
  {
    assert Pow10(5) == 100000;
    assert ScaledMagnitude(13.0, 5) == 1300000;
    assert UnsignedText(1300000, 5) == "13" by { assert NatToString(13) == "13"; }
    assert ScaledMagnitude(113.00, 5) == 11300000;
    assert UnsignedText(11300000, 5) == "113" by { assert NatToString(113) == "113"; }
  }

  /** A tie in the sixth place moves away from zero on both sides of zero. */
  lemma DecimalTextTieExamples()
    ensures DecimalToText(0.000005, 5) == "0.00001"
    ensures DecimalToText(-0.000005, 5) == "-0.00001"
  {
    assert Pow10(5) == 100000;
    assert ScaledMagnitude(0.000005, 5) == 1;
    assert ScaledMagnitude(-0.000005, 5) == 1;
    assert UnsignedText(1, 5) == "0.00001" by {
      assert NatToString(0) == "0" && NatToString(1) == "1";
      assert ZFill("1", 5) == "00001";
      assert StripTrailingZeros("00001") == "00001";
    }
  }

  /** A negative value that rounds to zero keeps its sign: "-0". */
  lemma DecimalTextNegativeZero()
    ensures DecimalToText(-0.000001, 5) == "-0"
  {
    assert Pow10(5) == 100000;
    assert ScaledMagnitude(-0.000001, 5) == 0;
    assert UnsignedText(0, 5) == "0" by { assert NatToString(0) == "0"; }
  }

  // ---------------------------------------------------------------------------
  // Timestamps
  // ---------------------------------------------------------------------------

  /** `n` written with at least `width` digits. */
  function Padded(n: nat, width: nat): string
  {
    ZFill(NatToString(n), width)
  }

  /** The `+HH:MM` / `-HH:MM` suffix `isoformat` writes for an aware value. */
  function OffsetText(minutes: int): string
  {
    var m: nat := if minutes < 0 then -minutes else minutes;
    (if minutes < 0 then "-" else "+") + Padded(m / 60, 2) + ":" + Padded(m % 60, 2)
  }

  /** `_datetime_to_text(value)`: `value.isoformat(timespec="seconds")`. */
  function DateTimeToText(d: DateTime): string
  {
    Padded(d.date.year, 4) + "-" + Padded(d.date.month, 2) + "-" + Padded(d.date.day, 2)
    + "T" + Padded(d.hour, 2) + ":" + Padded(d.minute, 2) + ":" + Padded(d.second, 2)
    + (if d.utcOffset.Some? then OffsetText(d.utcOffset.value) else "")
  }

  lemma PaddedDigits(n: nat, width: nat)
    requires width >= 1 && n < Pow10(width)
    ensures var s := Padded(n, width); |s| == width && IsDigits(s) && DigitsValue(s) == n
  {
    NatToStringLength(n, width);
  }

  /** Where the fields of `YYYY-MM-DDTHH:MM:SS` sit, for any pieces of those widths. */
  lemma FixedWidthLayout(y: string, mo: string, dd: string, h: string, mi: string, se: string, off: string)
    requires |y| == 4 && |mo| == 2 && |dd| == 2 && |h| == 2 && |mi| == 2 && |se| == 2
    ensures var t := y + "-" + mo + "-" + dd + "T" + h + ":" + mi + ":" + se + off;
      && |t| == 19 + |off|
      && t[4] == '-' && t[7] == '-' && t[10] == 'T' && t[13] == ':' && t[16] == ':'
      && t[0..4] == y && t[5..7] == mo && t[8..10] == dd
      && t[11..13] == h && t[14..16] == mi && t[17..19] == se
  {
    var t := y + "-" + mo + "-" + dd + "T" + h + ":" + mi + ":" + se + off;
    assert t == y + ("-" + (mo + ("-" + (dd + ("T" + (h + (":" + (mi + (":" + (se + off))))))))));
  }

  /** The timestamp is `YYYY-MM-DDTHH:MM:SS` (plus `+HH:MM` or `-HH:MM` for an aware
      value), and each field reads back from its fixed position. */
  lemma DateTimeTextLayout(d: DateTime)
    requires d.utcOffset.Some? ==> -1440 < d.utcOffset.value < 1440
    ensures var t := DateTimeToText(d);
      && |t| == (if d.utcOffset.Some? then 25 else 19)
      && t[4] == '-' && t[7] == '-' && t[10] == 'T' && t[13] == ':' && t[16] == ':'
      && IsDigits(t[0..4]) && DigitsValue(t[0..4]) == d.date.year
      && IsDigits(t[5..7]) && DigitsValue(t[5..7]) == d.date.month
      && IsDigits(t[8..10]) && DigitsValue(t[8..10]) == d.date.day
      && IsDigits(t[11..13]) && DigitsValue(t[11..13]) == d.hour
      && IsDigits(t[14..16]) && DigitsValue(t[14..16]) == d.minute
      && IsDigits(t[17..19]) && DigitsValue(t[17..19]) == d.second
  {
    OffsetTextLength(d.utcOffset);
    DateFieldsPadded(d);
    TimeFieldsPadded(d);
    FixedWidthLayout(Padded(d.date.year, 4), Padded(d.date.month, 2), Padded(d.date.day, 2),
                     Padded(d.hour, 2), Padded(d.minute, 2), Padded(d.second, 2),
                     if d.utcOffset.Some? then OffsetText(d.utcOffset.value) else "");
  }

  lemma OffsetTextLength(offset: Option<int>)
    requires offset.Some? ==> -1440 < offset.value < 1440
    ensures offset.Some? ==> |OffsetText(offset.value)| == 6
  {
    assert Pow10(2) == 100;
    if offset.Some? {
      var m: nat := if offset.value < 0 then -offset.value else offset.value;
      PaddedDigits(m / 60, 2);
      PaddedDigits(m % 60, 2);
    }
  }

  lemma DateFieldsPadded(d: DateTime)
    ensures |Padded(d.date.year, 4)| == 4 && IsDigits(Padded(d.date.year, 4))
    ensures DigitsValue(Padded(d.date.year, 4)) == d.date.year
    ensures |Padded(d.date.month, 2)| == 2 && IsDigits(Padded(d.date.month, 2))
    ensures DigitsValue(Padded(d.date.month, 2)) == d.date.month
    ensures |Padded(d.date.day, 2)| == 2 && IsDigits(Padded(d.date.day, 2))
    ensures DigitsValue(Padded(d.date.day, 2)) == d.date.day
  {
    assert Pow10(2) == 100 && Pow10(4) == 10000;
    PaddedDigits(d.date.year, 4);
    PaddedDigits(d.date.month, 2);
    PaddedDigits(d.date.day, 2);
  }

  lemma TimeFieldsPadded(d: DateTime)
    ensures |Padded(d.hour, 2)| == 2 && IsDigits(Padded(d.hour, 2)) && DigitsValue(Padded(d.hour, 2)) == d.hour
    ensures |Padded(d.minute, 2)| == 2 && IsDigits(Padded(d.minute, 2))
    ensures DigitsValue(Padded(d.minute, 2)) == d.minute
    ensures |Padded(d.second, 2)| == 2 && IsDigits(Padded(d.second, 2))
    ensures DigitsValue(Padded(d.second, 2)) == d.second
  {
    assert Pow10(2) == 100;
    PaddedDigits(d.hour, 2);
    PaddedDigits(d.minute, 2);
    PaddedDigits(d.second, 2);
  }
}
