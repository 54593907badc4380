/** The nine nutrients of a fertigation-solution analysis and the order every
    table of the program lists them in. */
module Nutrients {

  datatype Nutrient = N | P | K | Ca | Mg | S | Fe | Mn | Zn

  /** Insertion order of the measurement and range dictionaries. */
  const Order: seq<Nutrient> := [N, P, K, Ca, Mg, S, Fe, Mn, Zn]

  /** Position of a nutrient in `Order`. */
  function Rank(n: Nutrient): (r: nat)
    ensures r < |Order| && Order[r] == n
  {
    match n
    case N => 0
    case P => 1
    case K => 2
    case Ca => 3
    case Mg => 4
    case S => 5
    case Fe => 6
    case Mn => 7
    case Zn => 8
  }

  /** A table keyed by nutrient that has an entry for each of the nine. */
  predicate Total<T>(m: map<Nutrient, T>)
  {
    forall n: Nutrient :: n in m
  }

  /** The elements of `s` appear in strictly increasing `Order` position:
      no repetition, and listed as N, P, K, Ca, Mg, S, Fe, Mn, Zn. */
  predicate Ranked(s: seq<Nutrient>)
  {
    forall i, j :: 0 <= i < j < |s| ==> Rank(s[i]) < Rank(s[j])
  }

  lemma OrderIsRanked()
    ensures Ranked(Order)
    ensures forall i :: 0 <= i < |Order| ==> Rank(Order[i]) == i
    ensures forall n: Nutrient :: n in Order
  {
    assert forall i :: 0 <= i < |Order| ==> Rank(Order[i]) == i;
    forall n: Nutrient
      ensures n in Order
    {
      assert Order[Rank(n)] == n;
    }
  }

  /** The elements of `order` that belong to `keep`, in the order of `order`:
      the shape of a loop that appends an entry whenever a condition holds. */
  function Select(order: seq<Nutrient>, keep: set<Nutrient>): seq<Nutrient>
    decreases |order|
  {
    if order == [] then []
    else
      var rest := Select(order[..|order| - 1], keep);
      if order[|order| - 1] in keep then rest + [order[|order| - 1]] else rest
  }

  lemma {:induction false} SelectMembers(order: seq<Nutrient>, keep: set<Nutrient>)
    ensures |Select(order, keep)| <= |order|
    ensures forall n :: n in Select(order, keep) <==> n in order && n in keep
    decreases |order|
  {
    if order != [] {
      var init := order[..|order| - 1];
      SelectMembers(init, keep);
      assert order == init + [order[|order| - 1]];
    }
  }

  lemma {:induction false} SelectRanked(order: seq<Nutrient>, keep: set<Nutrient>)
    requires Ranked(order)
    ensures Ranked(Select(order, keep))
    decreases |order|
  {
    if order != [] {
      var init := order[..|order| - 1];
      var last := order[|order| - 1];
      SelectRanked(init, keep);
      SelectMembers(init, keep);
      var rest := Select(init, keep);
      if last in keep {
        forall i | 0 <= i < |rest|
          ensures Rank(rest[i]) < Rank(last)
        {
          assert rest[i] in init;
          var k :| 0 <= k < |init| && init[k] == rest[i];
          assert order[k] == rest[i];
        }
        var s := rest + [last];
        forall i, j | 0 <= i < j < |s|
          ensures Rank(s[i]) < Rank(s[j])
        {
          if j < |rest| {
            assert s[i] == rest[i] && s[j] == rest[j];
          } else {
            assert s[i] == rest[i] && s[j] == last;
          }
        }
      }
    }
  }
}
