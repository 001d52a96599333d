/** The dispatcher's price rule: `_computeSupplyRatio` and `_costFare` (dispatcher.py:203-235). */
module Pricing {
  import opened Common

  /** The supply ratio: `float('inf')` when no taxi is on duty, otherwise finite. */
  datatype SupplyRatio = Infinite | Finite(ratio: real)

  /** The fixed part of every fare (`initial_fare`). */
  const InitialFare: real := 25.0

  /** A fare never costs more than this many times its travel time (`fare_ceiling`). */
  const CeilingMultiplier: real := 10.0

  /**
   * `max(1, activeFares / activeTaxis)`, or infinite when no taxi is on duty.
   * The counts are the world's fare queue and its on-duty taxis.
   */
  function ComputeSupplyRatio(activeFares: nat, activeTaxis: nat): (r: SupplyRatio)
    ensures r.Infinite? <==> activeTaxis == 0
    ensures r.Finite? ==> r.ratio >= 1.0 && r.ratio >= activeFares as real / activeTaxis as real
    ensures r.Finite? ==> r.ratio == 1.0 || r.ratio == activeFares as real / activeTaxis as real
  {
    if activeTaxis == 0 then Infinite
    else
      var ratio := activeFares as real / activeTaxis as real;
      if ratio > 1.0 then Finite(ratio) else Finite(1.0)
  }

  /**
   * `min((InitialFare + travel) * ratio, CeilingMultiplier * travel)`. With an
   * infinite ratio the first operand is `inf` (travel is never negative), so the
   * ceiling is taken.
   */
  function CostFare(travel: Duration, ratio: SupplyRatio): (price: real)
    ensures price <= CeilingMultiplier * travel
    ensures ratio.Infinite? ==> price == CeilingMultiplier * travel
    ensures ratio.Finite? ==> price <= (InitialFare + travel) * ratio.ratio
    ensures ratio.Finite? ==> price == (InitialFare + travel) * ratio.ratio || price == CeilingMultiplier * travel
  {
    match ratio
    case Infinite => CeilingMultiplier * travel
    case Finite(r) =>
      var calculated := (InitialFare + travel) * r;
      var ceiling := CeilingMultiplier * travel;
      if ceiling < calculated then ceiling else calculated
  }

  /**
   * A trip that takes any time at all gets a positive price, once the supply
   * ratio comes from the ratio rule above.
   */
  lemma PricePositive(travel: Duration, activeFares: nat, activeTaxis: nat)
    requires travel > 0.0
    ensures CostFare(travel, ComputeSupplyRatio(activeFares, activeTaxis)) > 0.0
  {
    var ratio := ComputeSupplyRatio(activeFares, activeTaxis);
    if ratio.Finite? {
      assert (InitialFare + travel) * ratio.ratio >= InitialFare + travel;
    }
  }
}
