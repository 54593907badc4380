/** The status evaluator: each measured concentration is compared with its
    target range and classified as deficit, excess or optimal. */
module Evaluator {
  import opened Nutrients
  import opened Ranges

  datatype Status = Deficit | Excess | Optimal

  /** One result line: nutrient, measured value, range, status and distance
      outside the range. */
  datatype Row = Row(nutrient: Nutrient, measured: real, lo: real, hi: real, status: Status, diff: real)

  /** Classification of one measured value `v` against `r`. */
  function Classify(n: Nutrient, v: real, r: Range): (row: Row)
    ensures row.nutrient == n && row.measured == v && row.lo == r.lo && row.hi == r.hi
    ensures 0.0 <= row.diff
    ensures row.status == Deficit <==> v < r.lo
    ensures row.status == Excess <==> r.lo <= v && r.hi < v
    ensures row.status == Deficit ==> row.diff == r.lo - v
    ensures row.status == Excess ==> row.diff == v - r.hi
    ensures row.status == Optimal <==> row.diff == 0.0
    ensures r.lo <= r.hi ==> (row.status == Optimal <==> r.lo <= v <= r.hi)
  {
    if v < r.lo then Row(n, v, r.lo, r.hi, Deficit, r.lo - v)
    else if v > r.hi then Row(n, v, r.lo, r.hi, Excess, v - r.hi)
    else Row(n, v, r.lo, r.hi, Optimal, 0.0)
  }

  /** The result table: one row per nutrient, in `Order`. */
  function Evaluation(ranges: map<Nutrient, Range>, measured: map<Nutrient, real>): (rows: seq<Row>)
    requires Total(ranges) && Total(measured)
    ensures |rows| == |Order|
    ensures forall i :: 0 <= i < |rows| ==> rows[i] == Classify(Order[i], measured[Order[i]], ranges[Order[i]])
  {
    seq(|Order|, i requires 0 <= i < |Order| => Classify(Order[i], measured[Order[i]], ranges[Order[i]]))
  }

  /** The evaluation loop: appends the classification of each nutrient of the
      measurement, in its insertion order. */
  method Evaluate(ranges: map<Nutrient, Range>, measured: map<Nutrient, real>) returns (rows: seq<Row>)
    requires Total(ranges) && Total(measured)
    ensures rows == Evaluation(ranges, measured)
  {
    rows := [];
    for i := 0 to |Order|
      invariant |rows| == i
      invariant forall k :: 0 <= k < i ==> rows[k] == Classify(Order[k], measured[Order[k]], ranges[Order[k]])
    {
      var n := Order[i];
      var v := measured[n];
      var r := ranges[n];
      var row;
      if v < r.lo {
        row := Row(n, v, r.lo, r.hi, Deficit, r.lo - v);
      } else if v > r.hi {
        row := Row(n, v, r.lo, r.hi, Excess, v - r.hi);
      } else {
        row := Row(n, v, r.lo, r.hi, Optimal, 0.0);
      }
      rows := rows + [row];
    }
  }

  /** Each nutrient appears in exactly one row of the table, and that row's
      status is the one its classification gives. */
  lemma EvaluationCoversEachOnce(ranges: map<Nutrient, Range>, measured: map<Nutrient, real>, n: Nutrient)
    requires Total(ranges) && Total(measured)
    ensures var rows := Evaluation(ranges, measured);
      && rows[Rank(n)] == Classify(n, measured[n], ranges[n])
      && forall i :: 0 <= i < |rows| && rows[i].nutrient == n ==> i == Rank(n)
  {
  }
}
