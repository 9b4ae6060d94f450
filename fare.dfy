/**
 * The fare formula of the taxi calculator: a base cost plus a per-kilometre
 * charge, three optional flat surcharges, and a multiplier chosen by tariff
 * from a fixed table that falls back to 1.0 for an unknown tariff.
 *
 * Money and distance are `real`: an exact-arithmetic idealisation of the
 * calculator's binary `float64` (so 1.2 here is exactly 6/5).
 */
module Fare {

  const BaseCost: real := 200.0
  const CostPerKm: real := 30.0
  const ChildSeatCost: real := 100.0
  const TrunkCost: real := 50.0
  const DifferentDistrictCost: real := 200.0

  /** The inputs of one fare request. */
  datatype Trip = Trip(
    distance: real,
    hasChildSeat: bool,
    hasTrunk: bool,
    isDifferentDistrict: bool,
    tariff: string)

  /** The tariff table that the fare computation builds and looks the tariff up in. */
  const TariffMultipliers: map<string, real> :=
    map["econom" := 1.0, "standart" := 1.2, "dorogoi" := 1.5, "premium" := 2.0, "o4en_dorogoi" := 2.5]

  /**
   * The multiplier of a tariff, written as a switch over the tier names.
   * It agrees with a lookup in `TariffMultipliers` that falls back to 1.0,
   * and it never lowers a fare.
   */
  function Multiplier(tariff: string): (m: real)
    ensures m == if tariff in TariffMultipliers then TariffMultipliers[tariff] else 1.0
    ensures m >= 1.0
  {
    match tariff
    case "econom" => 1.0
    case "standart" => 1.2
    case "dorogoi" => 1.5
    case "premium" => 2.0
    case "o4en_dorogoi" => 2.5
    case _ => 1.0
  }

  /** The sum of the flat surcharges the trip asks for. */
  function Surcharges(t: Trip): (s: real)
    ensures 0.0 <= s <= ChildSeatCost + TrunkCost + DifferentDistrictCost
    ensures s == 0.0 <==> !t.hasChildSeat && !t.hasTrunk && !t.isDifferentDistrict
    ensures s == 350.0 <==> t.hasChildSeat && t.hasTrunk && t.isDifferentDistrict
  {
    (if t.hasChildSeat then ChildSeatCost else 0.0)
    + (if t.hasTrunk then TrunkCost else 0.0)
    + (if t.isDifferentDistrict then DifferentDistrictCost else 0.0)
  }

  /** The fare before the tariff multiplier is applied. */
  function Subtotal(t: Trip): real
  {
    BaseCost + t.distance * CostPerKm + Surcharges(t)
  }

  /** The fare of a trip. */
  function Cost(t: Trip): real
  {
    Subtotal(t) * Multiplier(t.tariff)
  }

  /**
   * The calculator's `calculateCost` as it runs: a running total that
   * starts from the distance charge, takes each surcharge in turn, and is
   * finally scaled by the multiplier looked up in the tariff table.
   */
  method CalculateCost(trip: Trip) returns (totalCost: real)
    ensures totalCost == Cost(trip)
  {
    var tariffMultipliers := TariffMultipliers;

    totalCost := BaseCost + trip.distance * CostPerKm;

    if trip.hasChildSeat {
      totalCost := totalCost + ChildSeatCost;
    }
    if trip.hasTrunk {
      totalCost := totalCost + TrunkCost;
    }
    if trip.isDifferentDistrict {
      totalCost := totalCost + DifferentDistrictCost;
    }

    var multiplier: real;
    if trip.tariff in tariffMultipliers {
      multiplier := tariffMultipliers[trip.tariff];
    } else {
      multiplier := 1.0;
    }
    totalCost := totalCost * multiplier;
  }

  /** The table has exactly the five tiers, with their five multipliers. */
  lemma TariffTableShape()
    ensures TariffMultipliers.Keys == {"econom", "standart", "dorogoi", "premium", "o4en_dorogoi"}
    ensures TariffMultipliers.Values == {1.0, 1.2, 1.5, 2.0, 2.5}
  {
  }

  /** With a known tariff and no extras the fare is (200 + 30 * distance) times the tier's multiplier. */
  lemma KnownTariffNoExtras(t: Trip)
    requires t.tariff in TariffMultipliers
    requires !t.hasChildSeat && !t.hasTrunk && !t.isDifferentDistrict
    ensures Cost(t) == (200.0 + 30.0 * t.distance) * TariffMultipliers[t.tariff]
  {
  }

  /** An unknown tariff is charged exactly like "econom". */
  lemma UnknownTariffIsEconom(t: Trip)
    requires t.tariff !in TariffMultipliers
    ensures Multiplier(t.tariff) == 1.0
    ensures Cost(t) == Cost(t.(tariff := "econom"))
  {
  }

  /** Each surcharge adds its own amount before the multiplier, whatever the others are. */
  lemma SurchargesAdditive(t: Trip)
    ensures Subtotal(t.(hasChildSeat := true)) == Subtotal(t.(hasChildSeat := false)) + 100.0
    ensures Subtotal(t.(hasTrunk := true)) == Subtotal(t.(hasTrunk := false)) + 50.0
    ensures Subtotal(t.(isDifferentDistrict := true)) == Subtotal(t.(isDifferentDistrict := false)) + 200.0
    ensures Subtotal(t.(hasChildSeat := true, hasTrunk := true, isDifferentDistrict := true))
         == Subtotal(t.(hasChildSeat := false, hasTrunk := false, isDifferentDistrict := false)) + 350.0
  {
  }

  /** The multiplier never brings a non-negative subtotal down. */
  lemma CostAtLeastSubtotal(t: Trip)
    requires Subtotal(t) >= 0.0
    ensures Cost(t) >= Subtotal(t)
  {
  }

  /** A trip of non-negative length costs at least the base cost. */
  lemma CostAtLeastBase(t: Trip)
    requires t.distance >= 0.0
    ensures Cost(t) >= BaseCost
  {
  }

  /** A longer trip never costs less. */
  lemma CostMonotoneInDistance(t: Trip, d1: real, d2: real)
    requires d1 <= d2
    ensures Cost(t.(distance := d1)) <= Cost(t.(distance := d2))
  {
  }

  /**
   * Two tariffs price every trip alike exactly when their multipliers are
   * equal; one trip with a non-zero subtotal already tells them apart.
   */
  lemma SameFareIffSameMultiplier(a: string, b: string)
    ensures (forall t: Trip :: Cost(t.(tariff := a)) == Cost(t.(tariff := b)))
        <==> Multiplier(a) == Multiplier(b)
  {
    if forall t: Trip :: Cost(t.(tariff := a)) == Cost(t.(tariff := b)) {
      var probe := Trip(0.0, false, false, false, a);
      assert Cost(probe.(tariff := a)) == Cost(probe.(tariff := b));
    }
  }

  /**
   * The tariffs that price like "econom" are "econom" itself and every
   * string outside the table: the fare does not tell an unknown tariff
   * from the cheapest tier.
   */
  lemma PricedLikeEconom(k: string)
    ensures (forall t: Trip :: Cost(t.(tariff := k)) == Cost(t.(tariff := "econom")))
        <==> (k == "econom" || k !in TariffMultipliers)
  {
    SameFareIffSameMultiplier(k, "econom");
  }

  /** Three worked fares. */
  lemma WorkedExamples()
    ensures Cost(Trip(10.0, false, false, false, "econom")) == 500.0
    ensures Cost(Trip(10.0, true, false, false, "premium")) == 1200.0
    ensures Cost(Trip(0.0, true, true, true, "o4en_dorogoi")) == 1375.0
  {
  }
}
