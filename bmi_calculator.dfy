/** The BMI calculator page: two text inputs filtered by the pattern `^\d*\.?\d*$` and read
    with `parseFloat`, the metric and imperial formulas, rounding to one decimal, the
    four-way category and its colour. Numbers are exact reals; floating point is not
    modelled. */
module BmiCalculator {
  import opened Common

  // ----- The input pattern -----

  predicate IsDigit(c: char) {
    '0' <= c <= '9'
  }

  predicate AllDigits(t: string) {
    forall m :: 0 <= m < |t| ==> IsDigit(t[m])
  }

  /** `^\d*\.?\d*$` by its structure: digits, an optional '.', digits. */
  ghost predicate MatchesNumericPattern(s: string) {
    exists k :: 0 <= k <= |s| && AllDigits(s[..k])
      && (AllDigits(s[k..]) || (k < |s| && s[k] == '.' && AllDigits(s[k + 1..])))
  }

  /** The same language described directly: only digits and dots, and at most one dot. */
  predicate IsNumericInput(s: string) {
    && (forall m :: 0 <= m < |s| ==> IsDigit(s[m]) || s[m] == '.')
    && (forall m, n :: 0 <= m < n < |s| && s[m] == '.' ==> s[n] != '.')
  }

  /** The pattern test and the direct description accept the same strings. */
  lemma NumericPatternIsNumericInput(s: string)
    ensures MatchesNumericPattern(s) <==> IsNumericInput(s)
  {
    if MatchesNumericPattern(s) {
      var k :| 0 <= k <= |s| && AllDigits(s[..k])
        && (AllDigits(s[k..]) || (k < |s| && s[k] == '.' && AllDigits(s[k + 1..])));
      forall m | 0 <= m < |s|
        ensures IsDigit(s[m]) || s[m] == '.'
        ensures s[m] == '.' ==> m == k
      {
        if m < k {
          assert s[..k][m] == s[m];
        } else if AllDigits(s[k..]) {
          assert s[k..][m - k] == s[m];
        } else if m > k {
          assert s[k + 1..][m - k - 1] == s[m];
        }
      }
    }
    if IsNumericInput(s) {
      DigitsAroundFirstDot(s);
    }
  }

  /** In a string that passes, the text before the first dot and the text after it are digits. */
  lemma DigitsAroundFirstDot(s: string)
    requires IsNumericInput(s)
    ensures AllDigits(s[..FirstDot(s)])
    ensures FirstDot(s) == |s| ==> AllDigits(s)
    ensures FirstDot(s) < |s| ==> AllDigits(s[FirstDot(s) + 1..])
  {
    var k := FirstDot(s);
    var ip := s[..k];
    forall m | 0 <= m < k ensures IsDigit(ip[m]) {
      assert ip[m] == s[m];
    }
    if k < |s| {
      var fp := s[k + 1..];
      forall m | 0 <= m < |fp| ensures IsDigit(fp[m]) {
        assert fp[m] == s[k + 1 + m];
      }
    }
  }

  /** The index of the first '.', or the length when there is none. */
  function FirstDot(s: string): (k: nat)
    ensures k <= |s|
    ensures k < |s| ==> s[k] == '.'
    ensures forall m :: 0 <= m < k ==> s[m] != '.'
  {
    if s == [] then 0
    else if s[0] == '.' then 0
    else 1 + FirstDot(s[1..])
  }

  // ----- parseFloat on strings that pass the pattern -----

  function Pow10(k: nat): (r: nat)
    ensures r >= 1
  {
    if k == 0 then 1 else 10 * Pow10(k - 1)
  }

  /** The value of a run of decimal digits. */
  function DigitsValue(d: string): (v: nat)
    requires AllDigits(d)
    ensures v < Pow10(|d|)
  {
    if d == [] then 0
    else
      var n := |d| - 1;
      assert AllDigits(d[..n]) by {
        forall m | 0 <= m < n ensures IsDigit(d[..n][m]) {
          assert d[..n][m] == d[m];
        }
      }
      DigitsValue(d[..n]) * 10 + (d[n] as int - '0' as int)
  }

  /** `parseFloat` of a non-empty string that passes the pattern: None (NaN) exactly for ".",
      otherwise the exact decimal value, whose integer part is the digits before the dot. */
  function ParseDecimal(s: string): (r: Option<real>)
    requires IsNumericInput(s) && s != ""
    ensures r.None? <==> s == "."
    ensures r.Some? ==> r.value >= 0.0
    ensures r.Some? && FirstDot(s) == |s| ==> AllDigits(s) && r.value == DigitsValue(s) as real
    ensures r.Some? ==> AllDigits(s[..FirstDot(s)]) && r.value.Floor == DigitsValue(s[..FirstDot(s)])
    ensures r.Some? && FirstDot(s) < |s| ==>
              && AllDigits(s[..FirstDot(s)] + s[FirstDot(s) + 1..])
              && Shifted(r.value, |s| - FirstDot(s) - 1) == DigitsValue(s[..FirstDot(s)] + s[FirstDot(s) + 1..]) as real
  {
    DigitsAroundFirstDot(s);
    var k := FirstDot(s);
    if k == |s| then
      assert s[..k] == s;
      Some(DigitsValue(s) as real)
    else
      var ip := s[..k];
      var fp := s[k + 1..];
      if ip == "" && fp == "" then
        assert s == [s[k]];
        None
      else
        DigitsConcat(ip, fp);
        Some(Decimal(DigitsValue(ip), DigitsValue(fp), |fp|, DigitsValue(ip + fp)))
  }

  /** Digits written one after another: the value of the first run shifted past the second. */
  lemma {:induction false} DigitsConcat(a: string, b: string)
    requires AllDigits(a) && AllDigits(b)
    ensures AllDigits(a + b)
    ensures DigitsValue(a + b) == DigitsValue(a) * Pow10(|b|) + DigitsValue(b)
  {
    if b == [] {
      assert a + b == a;
    } else {
      var n := |b| - 1;
      var ab := a + b;
      assert ab[..|ab| - 1] == a + b[..n];
      assert ab[|ab| - 1] == b[n];
      assert AllDigits(b[..n]) by {
        forall m | 0 <= m < n ensures IsDigit(b[..n][m]) {
          assert b[..n][m] == b[m];
        }
      }
      DigitsConcat(a, b[..n]);
      ShiftStep(DigitsValue(a), Pow10(n), DigitsValue(b[..n]), b[n] as int - '0' as int);
    }
  }

  lemma ShiftStep(x: int, p: int, y: int, d: int)
    ensures (x * p + y) * 10 + d == x * (10 * p) + (y * 10 + d)
  {
  }

  /** `x` with its decimal point moved `k` places to the right. */
  function Shifted(x: real, k: nat): real {
    if k == 0 then x else Shifted(x, k - 1) * 10.0
  }

  /** Moving the point `k` places multiplies by 10 to the `k`. */
  lemma {:induction false} ShiftedIsScaled(x: real, k: nat)
    ensures Shifted(x, k) == x * Pow10(k) as real
  {
    if k > 0 {
      ShiftedIsScaled(x, k - 1);
      assert (10 * Pow10(k - 1)) as real == 10.0 * Pow10(k - 1) as real;
    }
  }

  /** A fraction `v / p` with `0 <= v < p` lies in [0, 1). */
  lemma FractionBelowOne(v: real, p: real)
    requires 0.0 <= v < p
    ensures 0.0 <= v / p < 1.0
  {
    assert (v / p) * p == v;
  }

  /** A whole part plus a fraction `v / p`, scaled by `p`, clears the fraction. */
  lemma ScaleOut(i: real, v: real, p: real)
    requires p > 0.0
    ensures (i + v / p) * p == i * p + v
  {
    assert (v / p) * p == v;
  }

  /** The integer value behind a scaled decimal, read as a real number. */
  lemma CastShift(i: nat, v: nat, p: nat, n: nat)
    requires n == i * p + v
    ensures n as real == i as real * p as real + v as real
  {
    assert (i * p) as real == i as real * p as real;
  }

  /** A whole part plus a fraction `v / p` below one, scaled by `p`, clears the fraction. */
  lemma SplitFraction(i: nat, v: nat, p: nat, n: nat)
    requires v < p && n == i * p + v
    ensures 0.0 <= v as real / p as real < 1.0
    ensures (i as real + v as real / p as real) * p as real == n as real
  {
    FractionBelowOne(v as real, p as real);
    ScaleOut(i as real, v as real, p as real);
    CastShift(i, v, p, n);
  }

  /** The number with whole part `i` and fraction `v / 10^k`, the fraction being below one: its
      floor is `i`, and moving its point `k` places gives `n`, the digits with the dot removed. */
  function Decimal(i: nat, v: nat, k: nat, n: nat): (x: real)
    requires v < Pow10(k) && n == i * Pow10(k) + v
    ensures x >= 0.0 && x.Floor == i
    ensures Shifted(x, k) == n as real
  {
    SplitFraction(i, v, Pow10(k), n);
    ShiftedIsScaled(i as real + v as real / Pow10(k) as real, k);
    i as real + v as real / Pow10(k) as real
  }

  /** A height or weight field: `''` or the number `parseFloat` gave (None for NaN). */
  datatype InputValue = Blank | Parsed(value: Option<real>)

  /** JavaScript truthiness of the field: not '', not NaN, not 0. */
  predicate Truthy(v: InputValue) {
    v.Parsed? && v.value.Some? && v.value.value != 0.0
  }

  /** What `handleHeightChange`/`handleWeightChange` store for `text`, or None when the text is
      refused and the field keeps its value. */
  function AcceptInput(text: string): (r: Option<InputValue>)
    ensures r.None? <==> !MatchesNumericPattern(text)
    ensures text == "" ==> r == Some(Blank)
    ensures r.Some? && text != "" ==> r.value.Parsed? && (r.value.value.None? <==> text == ".")
    ensures r.Some? && text != "" ==> IsNumericInput(text) && r.value == Parsed(ParseDecimal(text))
  {
    NumericPatternIsNumericInput(text);
    if text == "" then Some(Blank)
    else if IsNumericInput(text) then Some(Parsed(ParseDecimal(text)))
    else None
  }

  // ----- Formulas -----

  datatype Unit = Metric | Imperial

  /** Metric: centimetres to metres, then weight over height squared; in centimetres the
      result times the squared height is 10000 times the weight. */
  function MetricBmi(weight: real, height: real): (r: real)
    requires height != 0.0
    ensures r * (height * height) == 10000.0 * weight
  {
    SquareNonZero(height / 100.0);
    ScaleSquare(weight, height / 100.0);
    weight / ((height / 100.0) * (height / 100.0))
  }

  lemma SquareNonZero(x: real)
    requires x != 0.0
    ensures x * x > 0.0
  {
    if x > 0.0 {
      assert x * x > 0.0 * x;
    } else {
      assert x * x > 0.0 * x;
    }
  }

  /** Dividing by the square of a length in metres, then multiplying by the square of the same
      length in centimetres, scales by 100 squared. */
  lemma ScaleSquare(weight: real, m: real)
    requires m * m > 0.0
    ensures (weight / (m * m)) * ((m * 100.0) * (m * 100.0)) == 10000.0 * weight
  {
    assert (weight / (m * m)) * (m * m) == weight;
    assert (m * 100.0) * (m * 100.0) == 10000.0 * (m * m);
  }

  /** Imperial: pounds and inches with the factor 703. */
  function ImperialBmi(weight: real, height: real): (r: real)
    requires height != 0.0
    ensures r * (height * height) == 703.0 * weight
  {
    SquareNonZero(height);
    (weight * 703.0) / (height * height)
  }

  /** The factor 703 slightly understates the exact conversion (1 lb = 0.45359237 kg,
      1 in = 2.54 cm): for a non-negative weight and a positive height the imperial value is at
      most, and within 0.01% of, the metric value of the converted measurements. */
  lemma ImperialApproximatesMetric(weight: real, height: real)
    requires weight >= 0.0 && height > 0.0
    ensures ImperialBmi(weight, height) <= MetricBmi(weight * 0.45359237, height * 2.54)
    ensures 0.9999 * MetricBmi(weight * 0.45359237, height * 2.54) <= ImperialBmi(weight, height)
  {
    InchesToCentimetres(height);
    ConversionBounds(ImperialBmi(weight, height), MetricBmi(weight * 0.45359237, height * 2.54), height, weight);
  }

  lemma InchesToCentimetres(h: real)
    ensures (h * 2.54) * (h * 2.54) == 6.4516 * (h * h)
  {
  }

  /** The two formulas' defining equations, compared through the positive squared height. */
  lemma ConversionBounds(i: real, m: real, h: real, w: real)
    requires h > 0.0 && w >= 0.0
    requires i * (h * h) == 703.0 * w
    requires m * (6.4516 * (h * h)) == 10000.0 * (w * 0.45359237)
    ensures i <= m && 0.9999 * m <= i
  {
    var h2 := PositiveProduct(h, h);
    BoundsBySquare(i, m, h2, w);
  }

  lemma PositiveProduct(a: real, b: real) returns (p: real)
    requires a > 0.0 && b > 0.0
    ensures p == a * b && p > 0.0
  {
    assert a * b > 0.0 * b;
    p := a * b;
    assert p > 0.0 * b;
  }

  lemma BoundsBySquare(i: real, m: real, h2: real, w: real)
    requires h2 > 0.0 && w >= 0.0
    requires i * h2 == 703.0 * w
    requires m * (6.4516 * h2) == 10000.0 * (w * 0.45359237)
    ensures i <= m && 0.9999 * m <= i
  {
    var d := 6.4516 * h2;
    assert i * d == 4535.4748 * w;
    LeByPositive(i, m, d);
    assert (0.9999 * m) * d == 0.9999 * (m * d);
    LeByPositive(0.9999 * m, i, d);
  }

  lemma LeByPositive(x: real, y: real, d: real)
    requires d > 0.0 && x * d <= y * d
    ensures x <= y
  {
  }

  function RawBmi(unit: Unit, weight: real, height: real): real
    requires height != 0.0
  {
    if unit == Metric then MetricBmi(weight, height) else ImperialBmi(weight, height)
  }

  /** `parseFloat(x.toFixed(1))` for x >= 0: the nearest tenth, a tie going up. */
  function RoundToTenth(x: real): (r: real)
    ensures x - 0.05 < r <= x + 0.05
    ensures (r * 10.0).Floor as real == r * 10.0
  {
    var n := (x * 10.0 + 0.5).Floor;
    assert n as real / 10.0 * 10.0 == n as real;
    n as real / 10.0
  }

  // ----- Category and colour -----

  datatype Category = Underweight | HealthyWeight | Overweight | Obesity

  /** The effect's chain of tests. */
  function BmiCategory(bmi: real): Category {
    if bmi < 18.5 then Underweight
    else if bmi >= 18.5 && bmi < 25.0 then HealthyWeight
    else if bmi >= 25.0 && bmi < 30.0 then Overweight
    else Obesity
  }

  /** The chain puts each category on one half-open range, and the ranges tile the line. */
  lemma CategoryRanges(bmi: real)
    ensures BmiCategory(bmi) == Underweight <==> bmi < 18.5
    ensures BmiCategory(bmi) == HealthyWeight <==> 18.5 <= bmi < 25.0
    ensures BmiCategory(bmi) == Overweight <==> 25.0 <= bmi < 30.0
    ensures BmiCategory(bmi) == Obesity <==> bmi >= 30.0
  {
  }

  /** A larger BMI never falls in an earlier category. */
  lemma CategoryMonotone(a: real, b: real)
    requires a <= b
    ensures CategoryRank(BmiCategory(a)) <= CategoryRank(BmiCategory(b))
  {
  }

  function CategoryRank(c: Category): (n: nat)
    ensures n < 4
  {
    match c
    case Underweight => 0
    case HealthyWeight => 1
    case Overweight => 2
    case Obesity => 3
  }

  function CategoryLabel(c: Category): (s: string)
    ensures s != ""
  {
    match c
    case Underweight => "Underweight"
    case HealthyWeight => "Healthy Weight"
    case Overweight => "Overweight"
    case Obesity => "Obesity"
  }

  /** `getBmiCategoryColor`: a class per category name, '' for anything else. */
  function GetBmiCategoryColor(category: string): string {
    if category == "Underweight" then "text-blue-500"
    else if category == "Healthy Weight" then "text-green-500"
    else if category == "Overweight" then "text-yellow-500"
    else if category == "Obesity" then "text-red-500"
    else ""
  }

  /** The four category names get four different non-empty classes; no other text gets one. */
  lemma CategoryColorsDistinct(c: Category, d: Category, other: string)
    requires forall e: Category :: other != CategoryLabel(e)
    ensures GetBmiCategoryColor(CategoryLabel(c)) != ""
    ensures c != d ==> GetBmiCategoryColor(CategoryLabel(c)) != GetBmiCategoryColor(CategoryLabel(d))
    ensures GetBmiCategoryColor(other) == ""
  {
    assert other != CategoryLabel(Underweight) && other != CategoryLabel(HealthyWeight);
    assert other != CategoryLabel(Overweight) && other != CategoryLabel(Obesity);
  }

  // ----- The page -----

  /** What the page writes under `bmiData`. */
  datatype BmiRecord = BmiRecord(bmi: real, category: string)

  class BmiCalculatorPage {
    var height: InputValue
    var weight: InputValue
    var bmi: Option<real>
    var bmiCategory: string
    var unit: Unit
    var stored: Option<BmiRecord>

    constructor (storage: Option<BmiRecord>)
      ensures height == Blank && weight == Blank && bmi.None? && bmiCategory == ""
      ensures unit == Metric && stored == storage
    {
      height, weight := Blank, Blank;
      bmi := None;
      bmiCategory := "";
      unit := Metric;
      stored := storage;
    }

    /** `handleHeightChange`: a text the pattern refuses leaves the field as it was. */
    method HandleHeightChange(text: string)
      modifies this`height
      ensures height == AcceptInput(text).GetOr(old(height))
    {
      var accepted := AcceptInput(text);
      if accepted.Some? {
        height := accepted.value;
      }
    }

    /** `handleWeightChange`, the same rule for the weight field. */
    method HandleWeightChange(text: string)
      modifies this`weight
      ensures weight == AcceptInput(text).GetOr(old(weight))
    {
      var accepted := AcceptInput(text);
      if accepted.Some? {
        weight := accepted.value;
      }
    }

    /** `calculateBMI` followed by the category effect once it has settled: with both fields
        truthy the rounded BMI, its category label and the stored record are set; otherwise
        nothing changes. */
    method CalculateBmi()
      modifies this`bmi, this`bmiCategory, this`stored
      ensures !(Truthy(height) && Truthy(weight)) ==> unchanged(this)
      ensures Truthy(height) && Truthy(weight) ==>
                var b := RoundToTenth(RawBmi(unit, weight.value.value, height.value.value));
                bmi == Some(b) && bmiCategory == CategoryLabel(BmiCategory(b))
                && stored == Some(BmiRecord(b, bmiCategory))
    {
      if Truthy(height) && Truthy(weight) {
        var b := RoundToTenth(RawBmi(unit, weight.value.value, height.value.value));
        bmi := Some(b);
        bmiCategory := CategoryLabel(BmiCategory(b));
        stored := Some(BmiRecord(b, bmiCategory));
      }
    }

    /** `handleUnitChange`: switch units and clear both fields and the result. */
    method HandleUnitChange(value: Unit)
      modifies this`unit, this`height, this`weight, this`bmi, this`bmiCategory
      ensures unit == value && height == Blank && weight == Blank && bmi.None? && bmiCategory == ""
      ensures stored == old(stored)
    {
      unit := value;
      height, weight := Blank, Blank;
      bmi := None;
      bmiCategory := "";
    }
  }
}
