# Plant-nutrition calculator: verified model of the calculation layer

This project models the calculation layer of a fertigation advice app for
four crops (Tomate, Pepino, Pimiento, Fresa). The model takes a crop, a
phenological stage, the measured concentrations (ppm) of nine nutrients
(N, P, K, Ca, Mg, S, Fe, Mn, Zn), the fertilizers the operator has on hand,
and the drip-irrigation setup. It then:

- builds the stage-adjusted target ranges. In the classic interpretation a
  base (min, max) table is multiplied by the stage factor `f`. In the IA
  interpretation a per-crop ideal value is multiplied by `f` and widened
  to ±10% (modules `Crops`, `Ranges`);
- classifies each nutrient as deficit, excess or optimal, with its distance
  outside the range (`Evaluator`);
- issues the five fixed antagonism warnings, or the all-clear notice
  (`Antagonism`);
- seeds the deficit table with `max(min - measured, 0)` and builds the
  dosing plan (`Dosing`, `Fertilizers`). For each nutrient with a positive
  deficit, in N..Zn order, the plan takes the first available fertilizer
  whose composition lists the nutrient. The amount is `deficit / percentage
  * 1000`, labelled g/L. When no fertilizer qualifies the line is
  "No disponible" with amount 0;
- computes the irrigation volume `(length * 100 / spacing) * flow * beds *
  hours`. The classic results are produced only when this volume is
  positive (`Irrigation`, `Analysis`).

All quantities are Dafny `real`. Nutrients, crops, stages and fertilizers
are closed datatypes, and the lookup tables are functions. The evaluation
loop, the warning checks, the deficit seeding, the first-match search and
the plan builder are methods. Each is proved equal to a specification
function, and the properties are proved about those functions.

The code does not propagate a fertilizer's other nutrients onto later
deficits, does not scale the amount by the tank volume, and has no
two-candidate ranker; the model follows the code. The lemma
`Dosing.PlanLines` states that every plan line carries its own seeded
deficit unchanged.

The classic stage table (`streamlit_nutricion.py:66-101`) and the IA stage
table (`streamlit_nutricion.py:318-347`) hold identical factors. Both
flows therefore use the single table `Crops.StageFactor`.

## Model

| member | source | states |
|---|---|---|
| `Crops.StageFactor` | streamlit_nutricion.py:66-104 | a crop has a factor for a stage exactly when the stage is in that crop's stage list, and every factor lies in (0, 1] |
| `Crops.StageTables` | streamlit_nutricion.py:318-347 | Tomate has 8 stages, Pepino 5, Pimiento and Fresa 4, none listed twice; each crop reaches factor 1 in exactly one stage |
| `Ranges.BaseRange` | streamlit_nutricion.py:111-122 | every base range has 0 < min < max |
| `Ranges.ClassicRangesOrdered` | streamlit_nutricion.py:124-125 | `ClassicRanges` (base table times f): scaling by a factor f >= 0 keeps 0 <= min <= max for every nutrient; f = 1 gives the base table back |
| `Ranges.StageRangesWithinBase` | streamlit_nutricion.py:103-125 | for every stage a crop offers, each adjusted range is ordered and lies inside the base range |
| `Ranges.IdealValue` | streamlit_nutricion.py:311-316 | every IA ideal value is positive |
| `Ranges.IaRangeBracketsTarget` | streamlit_nutricion.py:363-368 | `IaRanges`/`IaRange` (ideal value times f, widened ±10%): for f >= 0 the IA range is (0.9·v·f, 1.1·v·f): ordered, containing v·f, each bound a tenth of v·f away; strictly ordered when f > 0 |
| `Evaluator.Classify` | streamlit_nutricion.py:190-201 | exactly one status per value; diff >= 0; Deficit iff below min with diff = min - v; Excess iff not below min and above max with diff = v - max; Optimal iff diff = 0, and for an ordered range iff min <= v <= max |
| `Evaluator.Evaluate` | streamlit_nutricion.py:187-201 | the evaluation loop yields one row per nutrient, row i being the classification of the i-th nutrient in N..Zn order |
| `Evaluator.EvaluationCoversEachOnce` | streamlit_nutricion.py:386-398 | each nutrient's row sits at its position in N..Zn order and no other row is about it |
| `Antagonism.IssueWarnings` | streamlit_nutricion.py:226-237 | the five checks produce exactly the rule-order selection of N, K, Ca, Mg, Fe that exceed their maximum |
| `Antagonism.WarningsExactly` | streamlit_nutricion.py:228-237 | a warning is issued for a nutrient iff it has a rule and exceeds its max; warnings follow rule order, never repeat, and are at most 5 |
| `Antagonism.Notices` | streamlit_nutricion.py:239-243 | no warnings yield the all-clear notice alone; otherwise one warning notice per warning, in order, and no all-clear |
| `Fertilizers.Content` | streamlit_nutricion.py:251-261 | every percentage in the catalog lies in (0, 100], so the dose division is defined |
| `Fertilizers.CatalogCoversEveryNutrient` | streamlit_nutricion.py:151-161 | every nutrient is listed by at least one of the offered fertilizers |
| `Dosing.Shortfall` | streamlit_nutricion.py:267 | max(min - v, 0) is never negative, is positive iff v < min, and is then min - v |
| `Dosing.SeedDeficits` | streamlit_nutricion.py:263-267 | the seeding loop gives every nutrient the entry max(min - measured, 0) |
| `Dosing.SeededDeficitIsEvaluatedDiff` | streamlit_nutricion.py:264-267 | a seeded deficit equals the evaluator's diff when the status is Deficit and 0 otherwise |
| `Dosing.Dose` | streamlit_nutricion.py:283 | the amount times the percentage equals 1000 times the deficit, and a positive deficit gives a positive amount |
| `Dosing.FirstSupplier` | streamlit_nutricion.py:279-284 | the index is that of the first available fertilizer listing the nutrient; no earlier one lists it; it is the list length when none does |
| `Dosing.PlanEntry` | streamlit_nutricion.py:276-288 | a line names a fertilizer iff some available one lists the nutrient; it is then the first such, with a positive amount deficit/pct·1000; otherwise "No disponible" with amount 0 |
| `Dosing.ChooseFertilizer` | streamlit_nutricion.py:277-284 | the search loop with break returns the fertilizer and amount of `PlanEntry` |
| `Dosing.BuildPlan` | streamlit_nutricion.py:269-288 | the plan loop, skipping zero deficits, produces the specified plan over N..Zn |
| `Dosing.PlanShape` | streamlit_nutricion.py:272-288 | the plan's lines are, in order, the entries of the nutrients with positive deficit, each computed from its own deficit alone |
| `Dosing.PlanLines` | streamlit_nutricion.py:271-288 | one line per nutrient with positive deficit and none for the others, in N..Zn order, each carrying its seeded deficit unchanged |
| `Dosing.PlanCoversEvaluatedDeficits` | streamlit_nutricion.py:263-288 | a nutrient has a plan line iff the evaluator reports it in Deficit, and the line's deficit is the evaluator's diff |
| `Dosing.FullCatalogServesEveryLine` | streamlit_nutricion.py:151-162 | when every offered fertilizer is available, no plan line is "No disponible" |
| `Dosing.SelectionOrderDecides` | streamlit_nutricion.py:279-288 | an example: for an N deficit of 60, [Urea, Nitrato de calcio] picks Urea and the reverse picks Nitrato de calcio; a Zn deficit with neither listing Zn gets ("No disponible", 0); the general law is `Dosing.PlanEntry` |
| `Irrigation.EmittersPerBed` | streamlit_nutricion.py:176 | emitters per bed times the spacing equals the bed length in cm |
| `Irrigation.VolumePositive` | streamlit_nutricion.py:176-177 | `Volume` (emitters per bed times flow, beds and hours): positive length, beds, spacing, flow and hours give a positive volume |
| `Irrigation.InputBoundsOpenAnalysis` | streamlit_nutricion.py:169-184 | within the input lower bounds the volume is positive, so the analysis always runs |
| `Analysis.AnalyseClassic` | streamlit_nutricion.py:103-288 | unknown stage fails; otherwise ranges are the scaled base table, and results (rows, warnings, plan from the seeded deficits) are present iff the volume is positive |
| `Analysis.AnalyseIa` | streamlit_nutricion.py:357-398 | unknown stage fails; otherwise ranges are the ±10% IA table and rows are its evaluation |

## Left out

- The Streamlit page: widgets, layout, messages, table styling and two-decimal formatting. Measurements, available fertilizers and irrigation inputs are parameters.
- The Google Sheets connection and the `append_row` persistence in both flows. This is external I/O; the undefined `cultivo` at `streamlit_nutricion.py:300` lies inside it.
- pandas DataFrame construction and `pd.to_numeric` coercion.
- IEEE floating-point rounding: all quantities are exact reals.
- The `np.nan` default of the IA range lookup: every nutrient has an IA range, so it is unreachable.
- The `dias`/`descripcion` strings of the stage tables: only the factor `f` enters the computation.
- Status labels: the classic flow's "Exceso ⚠️"/"Óptimo ✅" and the IA flow's "Exceso"/"Óptimo" differ only in display text; both are the `Status` datatype.
- A stage missing from a crop's table is a KeyError in the source, unreachable through the stage selector; the model returns `Failure(UnknownStage)`.
- Irrigation.Volume: requires a non-zero emitter spacing (the source would raise a division error; its input bounds keep the spacing at least 1).
- Dosing.Dose: the figure `deficit / percentage * 1000` is kept with the source's g/L label; the model does not relate it to a physical mass per litre, and, as in the source, the irrigation volume does not enter it.
- The available-fertilizer list is any sequence; the source's multiselect never repeats an entry, which the model does not need.
- The deficit table is a value in the model, so building the plan cannot change it; the model states instead that each plan line carries its own seeded deficit.
