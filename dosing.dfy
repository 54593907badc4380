/** Deficit seeding and the dosing plan: for each nutrient below its minimum,
    the first available fertilizer that lists it and the amount to apply. */
module Dosing {
  import opened Wrappers
  import opened Nutrients
  import opened Ranges
  import opened Evaluator
  import opened Fertilizers

  /** How far (ppm) a measured value lies below the minimum, never negative. */
  function Shortfall(lo: real, v: real): (d: real)
    ensures 0.0 <= d
    ensures 0.0 < d <==> v < lo
    ensures 0.0 < d ==> d == lo - v
  {
    if lo - v > 0.0 then lo - v else 0.0
  }

  /** The seeded deficit table. */
  function Deficits(ranges: map<Nutrient, Range>, measured: map<Nutrient, real>): (d: map<Nutrient, real>)
    requires Total(ranges) && Total(measured)
    ensures Total(d)
    ensures forall n: Nutrient :: d[n] == Shortfall(ranges[n].lo, measured[n])
  {
    OrderIsRanked();
    map n | n in Order :: Shortfall(ranges[n].lo, measured[n])
  }

  /** The seeding loop: one entry per nutrient, `max(min - measured, 0)`. */
  method SeedDeficits(ranges: map<Nutrient, Range>, measured: map<Nutrient, real>) returns (d: map<Nutrient, real>)
    requires Total(ranges) && Total(measured)
    ensures d == Deficits(ranges, measured)
  {
    d := map[];
    for i := 0 to |Order|
      invariant forall n :: n in d <==> Rank(n) < i
      invariant forall n :: n in d ==> d[n] == Shortfall(ranges[n].lo, measured[n])
    {
      var n := Order[i];
      assert Rank(n) == i;
      var gap := ranges[n].lo - measured[n];
      d := d[n := if gap > 0.0 then gap else 0.0];
    }
    ghost var spec := Deficits(ranges, measured);
    assert d.Keys == spec.Keys;
  }

  /** The seeded deficit is the evaluator's `diff` for a nutrient in deficit
      and 0 for one in excess or optimal. */
  lemma SeededDeficitIsEvaluatedDiff(ranges: map<Nutrient, Range>, measured: map<Nutrient, real>, n: Nutrient)
    requires Total(ranges) && Total(measured)
    ensures var row := Classify(n, measured[n], ranges[n]);
      Deficits(ranges, measured)[n] == if row.status == Deficit then row.diff else 0.0
  {
  }

  /** Product amount for a deficit, `deficit / percentage * 1000`, reported as
      g/L; it is the amount whose percentage share is 1000 times the deficit. */
  function Dose(deficit: real, f: Fertilizer, n: Nutrient): (amount: real)
    requires Supplies(f, n)
    ensures amount * Content(f)[n] == deficit * 1000.0
    ensures 0.0 < deficit ==> 0.0 < amount
  {
    deficit / Content(f)[n] * 1000.0
  }

  /** Index of the first available product that lists `n`, or `|disp|` when
      none does. */
  function FirstSupplier(disp: seq<Fertilizer>, n: Nutrient): (k: nat)
    ensures k <= |disp|
    ensures k < |disp| ==> Supplies(disp[k], n)
    ensures forall j :: 0 <= j < k ==> !Supplies(disp[j], n)
  {
    if disp == [] then 0
    else if Supplies(disp[0], n) then 0
    else 1 + FirstSupplier(disp[1..], n)
  }

  /** One line of the plan. `fertilizer` is None for "No disponible". */
  datatype PlanRow = PlanRow(nutrient: Nutrient, deficit: real, fertilizer: Option<Fertilizer>, amount: real)

  function Label(row: PlanRow): string
  {
    match row.fertilizer
    case Some(f) => Name(f)
    case None => "No disponible"
  }

  /** The plan line for a nutrient with a positive deficit. */
  function PlanEntry(n: Nutrient, deficit: real, disp: seq<Fertilizer>): (row: PlanRow)
    requires 0.0 < deficit
    ensures row.nutrient == n && row.deficit == deficit
    ensures row.fertilizer.Some? <==> exists j :: 0 <= j < |disp| && Supplies(disp[j], n)
    ensures row.fertilizer.Some? ==>
      && FirstSupplier(disp, n) < |disp|
      && row.fertilizer.value == disp[FirstSupplier(disp, n)]
      && Supplies(row.fertilizer.value, n)
      && 0.0 < row.amount
      && row.amount * Content(row.fertilizer.value)[n] == deficit * 1000.0
    ensures row.fertilizer.None? ==> row.amount == 0.0
  {
    var k := FirstSupplier(disp, n);
    if k < |disp| then PlanRow(n, deficit, Some(disp[k]), Dose(deficit, disp[k], n))
    else PlanRow(n, deficit, None, 0.0)
  }

  /** The plan over the nutrients of `order`: a line for each one whose
      deficit is positive. */
  function Plan(deficits: map<Nutrient, real>, disp: seq<Fertilizer>, order: seq<Nutrient>): seq<PlanRow>
    requires Total(deficits)
    decreases |order|
  {
    if order == [] then []
    else
      var rest := Plan(deficits, disp, order[..|order| - 1]);
      var n := order[|order| - 1];
      if deficits[n] <= 0.0 then rest else rest + [PlanEntry(n, deficits[n], disp)]
  }

  /** The search for one nutrient: walks the available products in selection
      order, and at the first that lists the nutrient stops with that product
      and its dose. */
  method ChooseFertilizer(n: Nutrient, deficit: real, disp: seq<Fertilizer>)
    returns (chosen: Option<Fertilizer>, amount: real)
    requires 0.0 < deficit
    ensures PlanRow(n, deficit, chosen, amount) == PlanEntry(n, deficit, disp)
  {
    chosen, amount := None, 0.0;
    var j := 0;
    while j < |disp|
      invariant j <= |disp| && j <= FirstSupplier(disp, n)
      invariant chosen == None && amount == 0.0
    {
      var f := disp[j];
      if n in Content(f) {
        chosen := Some(f);
        amount := deficit / Content(f)[n] * 1000.0;
        break;
      }
      j := j + 1;
    }
  }

  /** The plan builder: skips nutrients without deficit and appends one line
      for each other nutrient, in the deficit table's order. */
  method BuildPlan(deficits: map<Nutrient, real>, disp: seq<Fertilizer>) returns (plan: seq<PlanRow>)
    requires Total(deficits)
    ensures plan == Plan(deficits, disp, Order)
  {
    plan := [];
    for i := 0 to |Order|
      invariant plan == Plan(deficits, disp, Order[..i])
    {
      var n := Order[i];
      var deficit := deficits[n];
      assert Order[..i + 1][..i] == Order[..i];
      if deficit <= 0.0 {
        continue;
      }
      var chosen, amount := ChooseFertilizer(n, deficit, disp);
      if chosen.Some? {
        plan := plan + [PlanRow(n, deficit, chosen, amount)];
      } else {
        plan := plan + [PlanRow(n, deficit, None, 0.0)];
      }
    }
    assert Order[..|Order|] == Order;
  }

  /** Nutrients with a positive deficit. */
  function Positive(deficits: map<Nutrient, real>): set<Nutrient>
  {
    set n | n in deficits && deficits[n] > 0.0
  }

  /** The plan's lines are, in order, the entries of the nutrients of `order`
      with a positive deficit, each computed from its own deficit alone. */
  lemma {:induction false} PlanShape(deficits: map<Nutrient, real>, disp: seq<Fertilizer>, order: seq<Nutrient>)
    requires Total(deficits)
    ensures var sel := Select(order, Positive(deficits)); var plan := Plan(deficits, disp, order);
      && |plan| == |sel|
      && forall i :: 0 <= i < |plan| ==> deficits[sel[i]] > 0.0 && plan[i] == PlanEntry(sel[i], deficits[sel[i]], disp)
    decreases |order|
  {
    if order != [] {
      PlanShape(deficits, disp, order[..|order| - 1]);
    }
  }

  function RowNutrients(plan: seq<PlanRow>): (ns: seq<Nutrient>)
    ensures |ns| == |plan|
    ensures forall i :: 0 <= i < |plan| ==> ns[i] == plan[i].nutrient
  {
    seq(|plan|, i requires 0 <= i < |plan| => plan[i].nutrient)
  }

  /** The full plan has exactly one line per nutrient with a positive
      deficit, in N, P, K, Ca, Mg, S, Fe, Mn, Zn order; each line records the
      seeded deficit unchanged, so no product's other nutrients reduce any
      other line's deficit. */
  lemma PlanLines(deficits: map<Nutrient, real>, disp: seq<Fertilizer>)
    requires Total(deficits)
    ensures var plan := Plan(deficits, disp, Order);
      && Ranked(RowNutrients(plan))
      && (forall n :: n in RowNutrients(plan) <==> deficits[n] > 0.0)
      && (forall i :: 0 <= i < |plan| ==> plan[i] == PlanEntry(plan[i].nutrient, deficits[plan[i].nutrient], disp))
  {
    var plan := Plan(deficits, disp, Order);
    var sel := Select(Order, Positive(deficits));
    PlanShape(deficits, disp, Order);
    OrderIsRanked();
    SelectMembers(Order, Positive(deficits));
    SelectRanked(Order, Positive(deficits));
    assert RowNutrients(plan) == sel;
  }

  /** From measurement to plan: a nutrient has a plan line exactly when the
      evaluator classifies it as in deficit, and the line's deficit is the
      evaluator's `diff`. */
  lemma PlanCoversEvaluatedDeficits(ranges: map<Nutrient, Range>, measured: map<Nutrient, real>, disp: seq<Fertilizer>, n: Nutrient)
    requires Total(ranges) && Total(measured)
    ensures var plan := Plan(Deficits(ranges, measured), disp, Order);
      var row := Classify(n, measured[n], ranges[n]);
      && (n in RowNutrients(plan) <==> row.status == Deficit)
      && forall i :: 0 <= i < |plan| && plan[i].nutrient == n ==> plan[i].deficit == row.diff
  {
    var d := Deficits(ranges, measured);
    PlanLines(d, disp);
    SeededDeficitIsEvaluatedDiff(ranges, measured, n);
  }

  /** With every offered product available, every line names a product. */
  lemma FullCatalogServesEveryLine(deficits: map<Nutrient, real>)
    requires Total(deficits)
    ensures forall row :: row in Plan(deficits, Offered, Order) ==> row.fertilizer.Some?
  {
    var plan := Plan(deficits, Offered, Order);
    PlanLines(deficits, Offered);
    forall row | row in plan
      ensures row.fertilizer.Some?
    {
      CatalogCoversEveryNutrient(row.nutrient);
    }
  }

  /** The operator's selection order decides between products that list the
      same nutrient, and a nutrient no selected product lists gets the
      "No disponible" line with amount 0. */
  lemma SelectionOrderDecides()
    ensures PlanEntry(N, 60.0, [Urea, NitratoDeCalcio]).fertilizer == Some(Urea)
    ensures PlanEntry(N, 60.0, [NitratoDeCalcio, Urea]).fertilizer == Some(NitratoDeCalcio)
    ensures PlanEntry(Zn, 0.05, [Urea, NitratoDeCalcio]) == PlanRow(Zn, 0.05, None, 0.0)
  {
  }
}
