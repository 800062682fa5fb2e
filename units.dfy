/**
 * Unit conversion between the stored units (pounds, inches) and the metric ones, and
 * the unit choice made when weights and heights are shown.  Text formatting is
 * reduced to the number a label shows and the unit it is labelled with.
 */
module Units {
  import opened Types
  import opened Numeric

  const LbsInKg: real := 2.20462262185
  const InchesInCm: real := 0.393701

  function LbsToKg(lbs: real): (kg: real)
    ensures lbs > 0.0 ==> 0.0 < kg < lbs
  {
    lbs / LbsInKg
  }

  function KgToLbs(kg: real): (lbs: real)
    ensures kg > 0.0 ==> lbs > kg
  {
    kg * LbsInKg
  }

  function InchesToCm(inches: real): (cm: real)
    ensures inches > 0.0 ==> cm > inches
  {
    inches / InchesInCm
  }

  function CmToInches(cm: real): (inches: real)
    ensures cm > 0.0 ==> 0.0 < inches < cm
  {
    cm * InchesInCm
  }

  /** Over exact numbers the weight conversions are inverse to each other. */
  lemma WeightRoundTrip(x: real)
    ensures KgToLbs(LbsToKg(x)) == x
    ensures LbsToKg(KgToLbs(x)) == x
  {
  }

  /** Over exact numbers the height conversions are inverse to each other. */
  lemma HeightRoundTrip(x: real)
    ensures CmToInches(InchesToCm(x)) == x
    ensures InchesToCm(CmToInches(x)) == x
  {
  }

  /**
   * The number `x.toFixed(1)` writes: the nearest tenth, ties away from zero (the
   * magnitude is rounded and the sign written in front).
   */
  function Fixed1(x: real): (r: real)
    ensures NearestTenth(r, x)
    ensures x >= 0.0 ==> r >= 0.0
  {
    if x >= 0.0 then
      var n := Round(10.0 * x);
      TenthsOfInt(n);
      n as real / 10.0
    else
      var n := Round(-10.0 * x);
      TenthsOfInt(-n);
      -(n as real / 10.0)
  }

  lemma TenthsOfInt(n: int)
    ensures WholeTenths(n as real / 10.0)
  {
    assert 10.0 * (n as real / 10.0) == n as real;
  }

  /** `r` is a whole number of tenths. */
  predicate WholeTenths(r: real) {
    (10.0 * r).Floor as real == 10.0 * r
  }

  /**
   * `r` is the tenth nearest to `x`, a tie going away from zero: within half a tenth,
   * the far end of the interval included on the side of zero's opposite.
   */
  predicate NearestTenth(r: real, x: real) {
    && WholeTenths(r)
    && (x >= 0.0 ==> -0.05 < r - x <= 0.05)
    && (x < 0.0 ==> -0.05 <= r - x < 0.05)
  }

  /** Only one number is the nearest tenth, so `Fixed1` is pinned down by its contract. */
  lemma NearestTenthUnique(r1: real, r2: real, x: real)
    requires NearestTenth(r1, x) && NearestTenth(r2, x)
    ensures r1 == r2
  {
    var d := (10.0 * r1).Floor - (10.0 * r2).Floor;
    assert d as real == 10.0 * r1 - 10.0 * r2;
    assert -1.0 < d as real < 1.0;
    assert d == 0;
  }

  /**
   * The number `x.toFixed(0)` writes: the nearest integer, ties away from zero, so an
   * exact half goes up for positive `x` and down for negative `x`.
   */
  function Fixed0(x: real): (r: int)
    ensures x >= 0.0 ==> -0.5 < r as real - x <= 0.5
    ensures x < 0.0 ==> -0.5 <= r as real - x < 0.5
  {
    if x >= 0.0 then Round(x) else -Round(-x)
  }

  /** The bounds of `Fixed0` leave one integer only. */
  lemma Fixed0Unique(n: int, x: real)
    requires x >= 0.0 ==> -0.5 < n as real - x <= 0.5
    requires x < 0.0 ==> -0.5 <= n as real - x < 0.5
    ensures n == Fixed0(x)
  {
  }

  /** Exact halves go away from zero on both sides. */
  lemma Fixed0TiesAwayFromZero()
    ensures Fixed0(190.5) == 191 && Fixed0(-2.5) == -3
  {
    Fixed0Unique(191, 190.5);
    Fixed0Unique(-3, -2.5);
  }

  /** A weight label: the number shown and the unit written after it. */
  datatype WeightLabel = KgLabel(kg: real) | LbsLabel(lbs: real)
  {
    function Amount(): real {
      match this
      case KgLabel(kg) => kg
      case LbsLabel(lbs) => lbs
    }
  }

  /** `formatWeight`: kilograms to one decimal in the metric system, pounds otherwise. */
  function FormatWeight(weightLbs: real, unitSystem: UnitSystem): (r: WeightLabel)
    ensures r.KgLabel? <==> unitSystem == Metric
    ensures r.KgLabel? ==> NearestTenth(r.kg, LbsToKg(weightLbs))
    ensures r.LbsLabel? ==> NearestTenth(r.lbs, weightLbs)
  {
    if unitSystem == Metric then KgLabel(Fixed1(LbsToKg(weightLbs))) else LbsLabel(Fixed1(weightLbs))
  }

  /** `getDisplayWeight`: the number an input field is prefilled with. */
  function GetDisplayWeight(weightLbs: real, unitSystem: UnitSystem): (r: real)
    ensures unitSystem == Metric ==> NearestTenth(r, LbsToKg(weightLbs))
    ensures unitSystem == Imperial ==> NearestTenth(r, weightLbs)
  {
    if unitSystem == Metric then Fixed1(LbsToKg(weightLbs)) else Fixed1(weightLbs)
  }

  /** The input prefill and the label show the same number in the same unit. */
  lemma DisplayWeightMatchesLabel(weightLbs: real, unitSystem: UnitSystem)
    ensures GetDisplayWeight(weightLbs, unitSystem) == FormatWeight(weightLbs, unitSystem).Amount()
  {
  }

  /** A height label: whole centimetres, or feet and inches. */
  datatype HeightLabel = CmLabel(cm: int) | FeetInchesLabel(feet: int, inches: int)

  function GetDisplayHeightCm(heightInches: real): (r: int)
    ensures -0.5 < r as real - InchesToCm(heightInches) <= 0.5
  {
    Round(InchesToCm(heightInches))
  }

  /** `Math.floor(h / 12)`: whole feet. */
  function GetDisplayHeightFt(heightInches: real): (r: int)
    ensures 12.0 * r as real <= heightInches < 12.0 * r as real + 12.0
  {
    (heightInches / 12.0).Floor
  }

  /** `Math.round(h % 12)`: the inches left over, with JavaScript's truncating remainder. */
  function GetDisplayHeightIn(heightInches: real): (r: int)
    ensures heightInches >= 0.0 ==> 0 <= r <= 12
  {
    Round(Rem12(heightInches))
  }

  /** `formatHeight`: centimetres in the metric system, feet and inches otherwise. */
  function FormatHeight(heightInches: real, unitSystem: UnitSystem): (r: HeightLabel)
    ensures r.CmLabel? <==> unitSystem == Metric
    ensures r.CmLabel? ==> -0.5 <= r.cm as real - InchesToCm(heightInches) <= 0.5
  {
    if unitSystem == Metric then CmLabel(Fixed0(InchesToCm(heightInches)))
    else FeetInchesLabel((heightInches / 12.0).Floor, Round(Rem12(heightInches)))
  }

  /** The imperial label uses the same feet/inches split as the input fields. */
  lemma ImperialLabelMatchesInputs(heightInches: real)
    ensures FormatHeight(heightInches, Imperial)
         == FeetInchesLabel(GetDisplayHeightFt(heightInches), GetDisplayHeightIn(heightInches))
  {
  }

  /** A whole, non-negative height splits into feet and inches that add back up. */
  lemma {:induction false} FeetInchesRecompose(h: int)
    requires h >= 0
    ensures GetDisplayHeightFt(h as real) == h / 12
    ensures GetDisplayHeightIn(h as real) == h % 12
    ensures GetDisplayHeightFt(h as real) * 12 + GetDisplayHeightIn(h as real) == h
  {
    var k := h / 12;
    assert 12 * k <= h < 12 * k + 12;
    assert k as real <= h as real / 12.0 < k as real + 1.0;
    Rem12OfNat(h);
  }

  /** For a fractional height the rounded inches can reach 12 (71.6 shows as 5' 12"). */
  lemma InchesCanReachTwelve()
    ensures GetDisplayHeightIn(71.6) == 12
    ensures GetDisplayHeightFt(71.6) == 5
  {
    assert Trunc(71.6 / 12.0) == 5;
    assert Rem12(71.6) == 11.6;
  }
}
