/** Crops, their phenological stages and the stage factor `f` that scales a
    crop's nutrient targets. The classic and the IA interpretation carry the
    same factors, so one table serves both. */
module Crops {
  import opened Wrappers

  datatype Crop = Tomate | Pepino | Pimiento | Fresa

  datatype Stage = A | B | C | D | E | F | G | H

  /** The stages offered for a crop, in the order they are listed. */
  function Stages(crop: Crop): seq<Stage>
  {
    match crop
    case Tomate => [A, B, C, D, E, F, G, H]
    case Pepino => [A, B, C, D, E]
    case Pimiento => [A, B, C, D]
    case Fresa => [A, B, C, D]
  }

  /** The factor `f` of a stage, or None when the crop has no such stage. */
  function StageFactor(crop: Crop, stage: Stage): (f: Option<real>)
    ensures f.Some? <==> stage in Stages(crop)
    ensures f.Some? ==> 0.0 < f.value <= 1.0
  {
    match crop
    case Tomate =>
      (match stage
       case A => Some(0.25)
       case B => Some(0.45)
       case C => Some(0.65)
       case D => Some(0.85)
       case E => Some(1.00)
       case F => Some(0.95)
       case G => Some(0.70)
       case H => Some(0.45))
    case Pepino =>
      (match stage
       case A => Some(0.3)
       case B => Some(0.5)
       case C => Some(0.7)
       case D => Some(0.9)
       case E => Some(1.0)
       case _ => None)
    case Pimiento =>
      (match stage
       case A => Some(0.3)
       case B => Some(0.6)
       case C => Some(0.85)
       case D => Some(1.0)
       case _ => None)
    case Fresa =>
      (match stage
       case A => Some(0.25)
       case B => Some(0.6)
       case C => Some(0.85)
       case D => Some(1.0)
       case _ => None)
  }

  /** The stage whose factor is 1, where the targets equal the base table. */
  function PeakStage(crop: Crop): Stage
  {
    match crop
    case Tomate => E
    case Pepino => E
    case Pimiento => D
    case Fresa => D
  }

  /** Tomate has eight stages, Pepino five, Pimiento and Fresa four each, none
      listed twice; each crop reaches the full factor 1 in exactly one stage. */
  lemma StageTables()
    ensures |Stages(Tomate)| == 8 && |Stages(Pepino)| == 5
    ensures |Stages(Pimiento)| == 4 && |Stages(Fresa)| == 4
    ensures forall crop, i, j :: 0 <= i < j < |Stages(crop)| ==> Stages(crop)[i] != Stages(crop)[j]
    ensures forall crop, s :: StageFactor(crop, s) == Some(1.0) <==> s == PeakStage(crop)
  {
  }
}
