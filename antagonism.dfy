/** Antagonism warnings: five fixed rules, each firing when its nutrient is
    measured above the stage-adjusted maximum. */
module Antagonism {
  import opened Nutrients
  import opened Ranges

  /** The nutrients that carry a rule, in the order the rules are checked. */
  const Rules: seq<Nutrient> := [N, K, Ca, Mg, Fe]

  /** The advisory text of each rule. */
  function Advisory(n: Nutrient): string
    requires n in Rules
  {
    match n
    case N => "Exceso de N puede reducir absorción de Ca y K."
    case K => "Exceso de K puede antagonizar la absorción de Mg y Ca."
    case Ca => "Exceso de Ca puede reducir absorción de Mg y K."
    case Mg => "Exceso de Mg puede afectar disponibilidad de Ca."
    case Fe => "Exceso de Fe puede precipitar con fosfatos."
  }

  /** What the advisory panel shows: a rule's warning, or the all-clear. */
  datatype Notice = Warning(n: Nutrient) | AllClear

  function Text(notice: Notice): string
    requires notice.Warning? ==> notice.n in Rules
  {
    match notice
    case Warning(n) => Advisory(n)
    case AllClear => "No se detectaron excesos ni antagonismos importantes."
  }

  /** Nutrients measured strictly above their maximum. */
  function Exceeding(ranges: map<Nutrient, Range>, measured: map<Nutrient, real>): set<Nutrient>
    requires Total(ranges) && Total(measured)
  {
    OrderIsRanked();
    set n | n in Order && measured[n] > ranges[n].hi
  }

  /** The warnings the rules produce, as the nutrients they are about. */
  function Warnings(ranges: map<Nutrient, Range>, measured: map<Nutrient, real>): seq<Nutrient>
    requires Total(ranges) && Total(measured)
  {
    Select(Rules, Exceeding(ranges, measured))
  }

  /** The five rule checks, each appending its warning when it fires. */
  method IssueWarnings(ranges: map<Nutrient, Range>, measured: map<Nutrient, real>) returns (ws: seq<Nutrient>)
    requires Total(ranges) && Total(measured)
    ensures ws == Warnings(ranges, measured)
  {
    ghost var x := Exceeding(ranges, measured);
    ws := [];
    assert ws == Select(Rules[..0], x);
    if measured[N] > ranges[N].hi {
      ws := ws + [N];
    }
    assert ws == Select(Rules[..1], x);
    if measured[K] > ranges[K].hi {
      ws := ws + [K];
    }
    assert Rules[..2][..1] == Rules[..1];
    assert ws == Select(Rules[..2], x);
    if measured[Ca] > ranges[Ca].hi {
      ws := ws + [Ca];
    }
    assert Rules[..3][..2] == Rules[..2];
    assert ws == Select(Rules[..3], x);
    if measured[Mg] > ranges[Mg].hi {
      ws := ws + [Mg];
    }
    assert Rules[..4][..3] == Rules[..3];
    assert ws == Select(Rules[..4], x);
    if measured[Fe] > ranges[Fe].hi {
      ws := ws + [Fe];
    }
    assert Rules[..5][..4] == Rules[..4];
    assert Rules[..5] == Rules;
  }

  /** A warning is issued for a nutrient exactly when it has a rule and is
      above its maximum; the warnings follow the rule order, none repeats,
      and there are at most five. */
  lemma WarningsExactly(ranges: map<Nutrient, Range>, measured: map<Nutrient, real>)
    requires Total(ranges) && Total(measured)
    ensures var ws := Warnings(ranges, measured);
      && |ws| <= 5
      && (forall n :: n in ws <==> n in Rules && measured[n] > ranges[n].hi)
      && Ranked(ws)
  {
    var x := Exceeding(ranges, measured);
    SelectMembers(Rules, x);
    RulesRanked();
    SelectRanked(Rules, x);
  }

  lemma RulesRanked()
    ensures Ranked(Rules)
  {
  }

  /** The notices shown: one warning per fired rule, or the all-clear
      notice alone when none fired. */
  function Notices(ws: seq<Nutrient>): (shown: seq<Notice>)
    ensures ws == [] <==> shown == [AllClear]
    ensures ws != [] ==> |shown| == |ws| && AllClear !in shown
    ensures forall i :: 0 <= i < |ws| ==> shown[i] == Warning(ws[i])
  {
    if ws == [] then [AllClear]
    else
      var shown := seq(|ws|, i requires 0 <= i < |ws| => Warning(ws[i]));
      assert shown[0].Warning?;
      shown
  }
}
