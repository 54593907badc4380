/** Target ranges (ppm) per nutrient: the classic table scaled by the stage
    factor, and the IA table of ideal values scaled and widened to ±10%. */
module Ranges {
  import opened Nutrients
  import opened Crops

  datatype Range = Range(lo: real, hi: real)

  /** The base (full-factor) range of the classic interpretation. */
  function BaseRange(n: Nutrient): (r: Range)
    ensures 0.0 < r.lo < r.hi
  {
    match n
    case N => Range(160.0, 220.0)
    case P => Range(30.0, 60.0)
    case K => Range(200.0, 350.0)
    case Ca => Range(120.0, 200.0)
    case Mg => Range(30.0, 60.0)
    case S => Range(40.0, 80.0)
    case Fe => Range(1.0, 3.0)
    case Mn => Range(0.1, 0.5)
    case Zn => Range(0.02, 0.1)
  }

  /** Both bounds multiplied by the stage factor. */
  function Scale(r: Range, f: real): Range
  {
    Range(r.lo * f, r.hi * f)
  }

  /** The classic stage-adjusted table for factor `f`. */
  function ClassicRanges(f: real): (t: map<Nutrient, Range>)
    ensures Total(t)
  {
    OrderIsRanked();
    map n | n in Order :: Scale(BaseRange(n), f)
  }

  /** Scaling by a non-negative factor keeps every range ordered and
      non-negative, and at the full factor gives the base table back. */
  lemma ClassicRangesOrdered(f: real)
    requires 0.0 <= f
    ensures forall n: Nutrient :: 0.0 <= ClassicRanges(f)[n].lo <= ClassicRanges(f)[n].hi
    ensures f == 1.0 ==> forall n: Nutrient :: ClassicRanges(f)[n] == BaseRange(n)
  {
    forall n: Nutrient
      ensures 0.0 <= ClassicRanges(f)[n].lo <= ClassicRanges(f)[n].hi
    {
      var b := BaseRange(n);
      assert ClassicRanges(f)[n] == Range(b.lo * f, b.hi * f);
      ScaleMonotone(b.lo, b.hi, f);
    }
  }

  lemma ScaleMonotone(x: real, y: real, f: real)
    requires 0.0 <= x <= y && 0.0 <= f
    ensures 0.0 <= x * f <= y * f
  {
  }

  /** For every stage a crop offers, the adjusted range lies inside the base
      range: the stage factor never raises a target above the peak stage's. */
  lemma StageRangesWithinBase(crop: Crop, stage: Stage)
    requires StageFactor(crop, stage).Some?
    ensures var t := ClassicRanges(StageFactor(crop, stage).value);
      forall n: Nutrient :: 0.0 < t[n].lo <= BaseRange(n).lo && t[n].lo < t[n].hi <= BaseRange(n).hi
  {
    var f := StageFactor(crop, stage).value;
    assert 0.0 < f <= 1.0;
    var t := ClassicRanges(f);
    forall n: Nutrient
      ensures 0.0 < t[n].lo <= BaseRange(n).lo && t[n].lo < t[n].hi <= BaseRange(n).hi
    {
      var b := BaseRange(n);
      assert t[n] == Scale(b, f);
      ShrinkByFactor(b.lo, b.hi, f);
    }
  }

  lemma ShrinkByFactor(x: real, y: real, f: real)
    requires 0.0 < x < y && 0.0 < f <= 1.0
    ensures 0.0 < x * f <= x && x * f < y * f <= y
  {
  }

  /** Ideal concentration (ppm) per crop in the IA interpretation. */
  function IdealValue(crop: Crop, n: Nutrient): (v: real)
    ensures 0.0 < v
  {
    match crop
    case Tomate =>
      (match n
       case N => 180.0 case P => 45.0 case K => 275.0 case Ca => 160.0 case Mg => 45.0
       case S => 60.0 case Fe => 2.0 case Mn => 0.3 case Zn => 0.06)
    case Pepino =>
      (match n
       case N => 150.0 case P => 40.0 case K => 200.0 case Ca => 120.0 case Mg => 35.0
       case S => 50.0 case Fe => 2.0 case Mn => 0.3 case Zn => 0.05)
    case Pimiento =>
      (match n
       case N => 170.0 case P => 50.0 case K => 250.0 case Ca => 150.0 case Mg => 40.0
       case S => 55.0 case Fe => 2.0 case Mn => 0.3 case Zn => 0.05)
    case Fresa =>
      (match n
       case N => 160.0 case P => 50.0 case K => 200.0 case Ca => 120.0 case Mg => 35.0
       case S => 50.0 case Fe => 2.0 case Mn => 0.3 case Zn => 0.05)
  }

  /** The ideal value scaled by the stage factor, then widened to ±10%. */
  function IaRange(ideal: real, f: real): Range
  {
    var adjusted := ideal * f;
    Range(adjusted * 0.9, adjusted * 1.1)
  }

  /** The IA table of a crop at stage factor `f`. */
  function IaRanges(crop: Crop, f: real): (t: map<Nutrient, Range>)
    ensures Total(t)
  {
    OrderIsRanked();
    map n | n in Order :: IaRange(IdealValue(crop, n), f)
  }

  /** The IA range is ordered and centred on the stage-adjusted ideal, with
      each bound a tenth of that value away from it. */
  lemma IaRangeBracketsTarget(crop: Crop, f: real, n: Nutrient)
    requires 0.0 <= f
    ensures var r := IaRanges(crop, f)[n]; var target := IdealValue(crop, n) * f;
      && 0.0 <= r.lo <= target <= r.hi
      && target - r.lo == r.hi - target == target / 10.0
      && (0.0 < f ==> r.lo < r.hi)
  {
  }
}
