/** The two interpretation flows: the classic one (ranges, results,
    warnings and dosing plan, run only when the irrigation volume is
    positive) and the IA one (±10% ranges and results). */
module Analysis {
  import opened Wrappers
  import opened Nutrients
  import opened Crops
  import opened Ranges
  import opened Evaluator
  import opened Antagonism
  import opened Fertilizers
  import opened Dosing
  import opened Irrigation

  datatype Error = UnknownStage

  /** Output of the results section of the classic flow. */
  datatype ClassicResults = ClassicResults(rows: seq<Row>, warnings: seq<Nutrient>, plan: seq<PlanRow>)

  /** Output of the classic flow: the stage ranges, the volume, and the
      results when the volume is positive. */
  datatype ClassicReport = ClassicReport(ranges: map<Nutrient, Range>, volume: real, results: Option<ClassicResults>)

  datatype IaReport = IaReport(ranges: map<Nutrient, Range>, rows: seq<Row>)

  method AnalyseClassic(crop: Crop, stage: Stage, measured: map<Nutrient, real>, disp: seq<Fertilizer>, irr: DripSetup)
    returns (out: Result<ClassicReport, Error>)
    requires Total(measured) && irr.spacing != 0.0
    ensures out.Failure? <==> stage !in Stages(crop)
    ensures out.Success? ==>
      var f := StageFactor(crop, stage).value;
      var ranges := ClassicRanges(f);
      && out.value.ranges == ranges
      && out.value.volume == Volume(irr)
      && (out.value.results.Some? <==> 0.0 < Volume(irr))
      && (out.value.results.Some? ==> out.value.results.value == ClassicResults(
            Evaluation(ranges, measured),
            Warnings(ranges, measured),
            Plan(Deficits(ranges, measured), disp, Order)))
  {
    var factor := StageFactor(crop, stage);
    if factor.None? {
      return Failure(UnknownStage);
    }
    var ranges := ClassicRanges(factor.value);
    var volume := Volume(irr);
    if volume > 0.0 {
      var rows := Evaluate(ranges, measured);
      var warnings := IssueWarnings(ranges, measured);
      var deficits := SeedDeficits(ranges, measured);
      var plan := BuildPlan(deficits, disp);
      out := Success(ClassicReport(ranges, volume, Some(ClassicResults(rows, warnings, plan))));
    } else {
      out := Success(ClassicReport(ranges, volume, None));
    }
  }

  method AnalyseIa(crop: Crop, stage: Stage, measured: map<Nutrient, real>)
    returns (out: Result<IaReport, Error>)
    requires Total(measured)
    ensures out.Failure? <==> stage !in Stages(crop)
    ensures out.Success? ==>
      var ranges := IaRanges(crop, StageFactor(crop, stage).value);
      out.value == IaReport(ranges, Evaluation(ranges, measured))
  {
    var factor := StageFactor(crop, stage);
    if factor.None? {
      return Failure(UnknownStage);
    }
    var ranges := IaRanges(crop, factor.value);
    var rows := Evaluate(ranges, measured);
    out := Success(IaReport(ranges, rows));
  }
}
