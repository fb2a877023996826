/**
  The milk catalogue as the components read it: lookup of a variety by name,
  the price formulas (a booking, a month of a subscription, a whole plan) and
  the two colour lookups (the variety's own colour, and the fixed colour map
  of the worker dashboards).
 */
module Catalog {
  import opened Records
  import opened Seqs

  /** The six varieties every list in the system is seeded with, in order. */
  const StandardNames: seq<string> :=
    ["Aavin Green", "Aavin Blue", "Aavin Orange", "Aavin Purple", "Aavin Pink", "Buttermilk"]
  const StandardColors: seq<string> :=
    ["bg-green-500", "bg-blue-500", "bg-orange-500", "bg-purple-500", "bg-pink-500", "bg-yellow-500"]
  const StandardPrices: seq<real> := [28.0, 26.0, 24.0, 22.0, 20.0, 15.0]
  const StandardDescriptions: seq<string> :=
    ["Full cream milk", "Toned milk", "Standardized milk", "Slim milk", "Double toned milk", "Fresh buttermilk"]

  /** The k-th standard variety under a given id and stock level. */
  function Standard(k: nat, id: string, stock: int): (v: MilkVariety)
    requires k < 6
    ensures v.name == StandardNames[k] && v.color == StandardColors[k]
    ensures v.pricePerLiter == StandardPrices[k] && v.stock == stock && v.id == id
  {
    MilkVariety(id, StandardNames[k], StandardColors[k], StandardPrices[k], stock, StandardDescriptions[k])
  }

  function StandardVarieties(ids: seq<string>, stocks: seq<int>): (vs: seq<MilkVariety>)
    requires |ids| == 6 && |stocks| == 6
    ensures |vs| == 6
    ensures forall k :: 0 <= k < 6 ==> vs[k] == Standard(k, ids[k], stocks[k])
  {
    seq(6, k requires 0 <= k < 6 => Standard(k, ids[k], stocks[k]))
  }

  /** The catalogue the React customer pages hard-code: ids "1" to "6",
      every variety with 100 in stock. */
  const DemoVarieties: seq<MilkVariety> :=
    StandardVarieties(["1", "2", "3", "4", "5", "6"], [100, 100, 100, 100, 100, 100])

  lemma StandardNamesDistinct()
    ensures forall i, j :: 0 <= i < j < 6 ==> StandardNames[i] != StandardNames[j]
  {
  }

  predicate HasName(name: string, v: MilkVariety) {
    v.name == name
  }

  /** `varieties.find(v => v.name === name)`. */
  function FindVariety(vs: seq<MilkVariety>, name: string): (r: Option<MilkVariety>)
    ensures r.Some? ==> r.value in vs && r.value.name == name
    ensures r.None? <==> forall v :: v in vs ==> v.name != name
  {
    Find(vs, v => HasName(name, v))
  }

  /** `variety?.pricePerLiter || 0`. */
  function UnitPrice(vs: seq<MilkVariety>, name: string): (p: real)
    ensures (forall v :: v in vs ==> v.name != name) ==> p == 0.0
    ensures p != 0.0 ==> exists v :: v in vs && v.name == name && v.pricePerLiter == p
  {
    match FindVariety(vs, name)
    case None => 0.0
    case Some(v) => v.pricePerLiter
  }

  /** The booking modals' total: price per litre times quantity. */
  function BookingTotal(vs: seq<MilkVariety>, name: string, quantity: int): real {
    UnitPrice(vs, name) * quantity as real
  }

  /** A month of a subscription: price per litre times quantity times 30 days. */
  function MonthlyPrice(vs: seq<MilkVariety>, name: string, quantity: int): real {
    UnitPrice(vs, name) * quantity as real * 30.0
  }

  /** The subscription modal's total over the chosen duration in days. */
  function PlanTotal(vs: seq<MilkVariety>, name: string, quantity: int, duration: int): real {
    UnitPrice(vs, name) * quantity as real * duration as real
  }

  lemma UnitPriceAt(vs: seq<MilkVariety>, name: string, k: nat)
    requires k < |vs| && vs[k].name == name
    requires forall j :: 0 <= j < k ==> vs[j].name != name
    ensures UnitPrice(vs, name) == vs[k].pricePerLiter
  {
    FindAt(vs, v => HasName(name, v), k);
  }

  /** The price used is that of the first variety carrying the name. */
  lemma PricesOfListed(vs: seq<MilkVariety>, name: string, k: nat, quantity: int, duration: int)
    requires k < |vs| && vs[k].name == name
    requires forall j :: 0 <= j < k ==> vs[j].name != name
    ensures BookingTotal(vs, name, quantity) == vs[k].pricePerLiter * quantity as real
    ensures MonthlyPrice(vs, name, quantity) == vs[k].pricePerLiter * quantity as real * 30.0
    ensures PlanTotal(vs, name, quantity, duration) == vs[k].pricePerLiter * quantity as real * duration as real
  {
    UnitPriceAt(vs, name, k);
    var p := UnitPrice(vs, name);
    assert BookingTotal(vs, name, quantity) == p * quantity as real;
    assert MonthlyPrice(vs, name, quantity) == p * quantity as real * 30.0;
    assert PlanTotal(vs, name, quantity, duration) == p * quantity as real * duration as real;
  }

  /** In a standard catalogue each standard name is priced at its standard
      price, and every other name at 0. */
  lemma StandardUnitPrice(ids: seq<string>, stocks: seq<int>, name: string)
    requires |ids| == 6 && |stocks| == 6
    ensures forall k :: 0 <= k < 6 && StandardNames[k] == name ==> UnitPrice(StandardVarieties(ids, stocks), name) == StandardPrices[k]
    ensures name !in StandardNames ==> UnitPrice(StandardVarieties(ids, stocks), name) == 0.0
  {
    var vs := StandardVarieties(ids, stocks);
    StandardNamesDistinct();
    forall k | 0 <= k < 6 && StandardNames[k] == name
      ensures UnitPrice(vs, name) == StandardPrices[k]
    {
      FindAt(vs, v => HasName(name, v), k);
    }
    if name !in StandardNames {
      forall v | v in vs ensures v.name != name {
        var i :| 0 <= i < |vs| && vs[i] == v;
      }
    }
  }

  /** Every total is 0 for a name no variety carries. */
  lemma PricesOfUnlisted(vs: seq<MilkVariety>, name: string, quantity: int, duration: int)
    requires forall v :: v in vs ==> v.name != name
    ensures BookingTotal(vs, name, quantity) == 0.0
    ensures MonthlyPrice(vs, name, quantity) == 0.0
    ensures PlanTotal(vs, name, quantity, duration) == 0.0
  {
  }

  /** A plan is the daily total repeated for each day; a 30-day plan costs
      exactly the monthly price. */
  lemma PlanIsDailyTotalTimesDuration(vs: seq<MilkVariety>, name: string, quantity: int, duration: int)
    ensures PlanTotal(vs, name, quantity, duration) == BookingTotal(vs, name, quantity) * duration as real
    ensures PlanTotal(vs, name, quantity, 30) == MonthlyPrice(vs, name, quantity)
  {
  }

  /** Two litres of Aavin Green from the standard catalogue cost 56. */
  lemma ExampleBookingTotal(ids: seq<string>, stocks: seq<int>)
    requires |ids| == 6 && |stocks| == 6
    ensures BookingTotal(StandardVarieties(ids, stocks), "Aavin Green", 2) == 56.0
    ensures MonthlyPrice(StandardVarieties(ids, stocks), "Buttermilk", 1) == 450.0
  {
    var vs := StandardVarieties(ids, stocks);
    PricesOfListed(vs, "Aavin Green", 0, 2, 0);
    StandardNamesDistinct();
    PricesOfListed(vs, "Buttermilk", 5, 1, 0);
  }

  /** `variety?.color || 'bg-gray-300'`: the colour of the first variety with
      the name, or grey when there is none or its colour is empty. */
  function VarietyColor(vs: seq<MilkVariety>, name: string): (c: string)
    ensures (forall v :: v in vs ==> v.name != name) ==> c == "bg-gray-300"
    ensures c != "bg-gray-300" ==> exists v :: v in vs && v.name == name && v.color == c
  {
    match FindVariety(vs, name)
    case None => "bg-gray-300"
    case Some(v) => OrElse(Some(v.color), "bg-gray-300")
  }

  /** The worker dashboards' fixed colour map, with 'bg-gray-500' for any
      other name. */
  function MilkColorByName(name: string): (c: string)
    ensures forall k :: 0 <= k < 6 && StandardNames[k] == name ==> c == StandardColors[k]
    ensures name !in StandardNames <==> c == "bg-gray-500"
  {
    if name == "Aavin Green" then "bg-green-500"
    else if name == "Aavin Blue" then "bg-blue-500"
    else if name == "Aavin Orange" then "bg-orange-500"
    else if name == "Aavin Purple" then "bg-purple-500"
    else if name == "Aavin Pink" then "bg-pink-500"
    else if name == "Buttermilk" then "bg-yellow-500"
    else "bg-gray-500"
  }

  /** On the standard catalogue the fixed map and the per-variety colour agree
      for every standard name. */
  lemma ColorMapsAgree(ids: seq<string>, stocks: seq<int>, k: nat)
    requires |ids| == 6 && |stocks| == 6 && k < 6
    ensures VarietyColor(StandardVarieties(ids, stocks), StandardNames[k]) == MilkColorByName(StandardNames[k])
  {
    var vs := StandardVarieties(ids, stocks);
    var name := StandardNames[k];
    StandardNamesDistinct();
    VarietyColorAt(vs, name, k);
    assert vs[k].color == StandardColors[k];
    assert MilkColorByName(name) == StandardColors[k];
  }

  lemma VarietyColorAt(vs: seq<MilkVariety>, name: string, k: nat)
    requires k < |vs| && vs[k].name == name && vs[k].color != ""
    requires forall j :: 0 <= j < k ==> vs[j].name != name
    ensures VarietyColor(vs, name) == vs[k].color
  {
    FindAt(vs, v => HasName(name, v), k);
  }
}
