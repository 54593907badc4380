/** The fertilizer catalog: the products the operator can mark as available
    and the percentage by mass of each nutrient they contain. */
module Fertilizers {
  import opened Nutrients

  datatype Fertilizer =
    | NitratoDeCalcio
    | NitratoDePotasio
    | SulfatoDeMagnesio
    | FosfatoMonoamonico
    | SulfatoDePotasio
    | Urea
    | QuelatoDeHierro
    | QuelatoDeZinc
    | QuelatoDeManganeso

  /** The products offered for selection, in the order they are listed. */
  const Offered: seq<Fertilizer> := [
    NitratoDeCalcio, NitratoDePotasio, SulfatoDeMagnesio, FosfatoMonoamonico,
    SulfatoDePotasio, Urea, QuelatoDeHierro, QuelatoDeZinc, QuelatoDeManganeso
  ]

  function Name(f: Fertilizer): string
  {
    match f
    case NitratoDeCalcio => "Nitrato de calcio"
    case NitratoDePotasio => "Nitrato de potasio"
    case SulfatoDeMagnesio => "Sulfato de magnesio"
    case FosfatoMonoamonico => "Fosfato monoamónico (MAP)"
    case SulfatoDePotasio => "Sulfato de potasio"
    case Urea => "Urea"
    case QuelatoDeHierro => "Quelato de hierro"
    case QuelatoDeZinc => "Quelato de zinc"
    case QuelatoDeManganeso => "Quelato de manganeso"
  }

  /** Nutrient percentages of a product; every listed percentage lies in
      (0, 100], so dividing by one is always defined. */
  function Content(f: Fertilizer): (c: map<Nutrient, real>)
    ensures forall n :: n in c ==> 0.0 < c[n] <= 100.0
  {
    match f
    case Urea => map[N := 46.0]
    case NitratoDeCalcio => map[N := 15.5, Ca := 19.0]
    case NitratoDePotasio => map[N := 13.0, K := 46.0]
    case SulfatoDeMagnesio => map[Mg := 9.8, S := 13.0]
    case FosfatoMonoamonico => map[P := 52.0, N := 11.0]
    case SulfatoDePotasio => map[K := 50.0, S := 18.0]
    case QuelatoDeHierro => map[Fe := 6.0]
    case QuelatoDeManganeso => map[Mn := 12.0]
    case QuelatoDeZinc => map[Zn := 14.0]
  }

  /** The product's composition lists the nutrient. */
  predicate Supplies(f: Fertilizer, n: Nutrient)
  {
    n in Content(f)
  }

  /** Every nutrient is listed by some offered product. */
  lemma CatalogCoversEveryNutrient(n: Nutrient)
    ensures exists k :: 0 <= k < |Offered| && Supplies(Offered[k], n)
  {
    var k := match n
      case N => 0 case Ca => 0 case K => 1 case Mg => 2 case S => 2
      case P => 3 case Fe => 6 case Zn => 7 case Mn => 8;
    assert Supplies(Offered[k], n);
  }
}
