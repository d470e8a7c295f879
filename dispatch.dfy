/** Choosing the calculator by location name. The parameters are the keyword
    arguments of one calculator; a calculator accepts another location's
    arguments only when every keyword is one of its own parameters, filling
    the rest from its defaults. That holds for Modesto's arguments handed to
    Merced, whose surcharge percentage then takes its default; every other
    pairing is rejected. */
module Dispatch {
  import opened Tariff
  import Merced
  import Modesto
  import Pge

  /** The keyword arguments of one calculator. */
  datatype LocationParams =
    | MercedParams(merced: Merced.Params)
    | ModestoParams(modesto: Modesto.Params)
    | PgeParams(pge: Pge.Params)

  /** The rate table the chosen calculator uses. */
  datatype RateSchedule =
    | MercedSchedule(mercedRates: map<string, Merced.SeasonRates>)
    | ModestoSchedule(modestoRates: map<string, Modesto.SeasonRates>)
    | PgeSchedule(pgeRates: map<string, Pge.Plan>)

  /** The breakdown the chosen calculator returns. */
  datatype LocationBreakdown =
    | MercedBreakdown(mercedBreakdown: Merced.Breakdown)
    | ModestoBreakdown(modestoBreakdown: Modesto.Breakdown)
    | PgeBreakdown(pgeBreakdown: Pge.Breakdown)

  /** The locations served. */
  const Locations: set<string> := {"Modesto", "Merced", "PG&E"}

  /** Modesto's arguments as Merced receives them: the surcharge percentage
      takes its default. */
  function ModestoAsMerced(m: Modesto.Params): Merced.Params
  {
    Merced.Params(m.numChargingSessions, m.numKwhPerSession, m.rateSessionDist,
                  m.actualMaxNumSimultaneousCharging, m.season, Merced.DefaultMandatedChargePercent, m.worstCase)
  }

  /** Merced's calculator on the given arguments, or why it cannot run. */
  function MercedCall(params: LocationParams): Result<Merced.Breakdown>
  {
    match params
    case MercedParams(m) => Merced.CalculateMercedCosts(m)
    case ModestoParams(m) => Merced.CalculateMercedCosts(ModestoAsMerced(m))
    case PgeParams(_) => Err(ParamsMismatch)
  }

  /** The rate table and the breakdown for a location, or why there are none:
      an unknown location first, then arguments the calculator does not
      accept, then whatever the calculator fails with. */
  function CalculateCost(location: string, params: LocationParams): (r: Result<(RateSchedule, LocationBreakdown)>)
    ensures location !in Locations ==> r == Err(UnsupportedLocation)
    ensures location == "Merced" ==>
      match MercedCall(params)
      case Ok(b) => r == Ok((MercedSchedule(Merced.MercedRates), MercedBreakdown(b)))
      case Err(e) => r == Err(e)
    ensures location == "Modesto" ==>
      match params
      case ModestoParams(m) =>
        (match Modesto.CalculateModestoCosts(m)
         case Ok(b) => r == Ok((ModestoSchedule(Modesto.ModestoRates), ModestoBreakdown(b)))
         case Err(e) => r == Err(e))
      case _ => r == Err(ParamsMismatch)
    ensures location == "PG&E" ==>
      match params
      case PgeParams(m) =>
        (match Pge.CalculatePgeCosts(m)
         case Ok(b) => r == Ok((PgeSchedule(Pge.PgeRates), PgeBreakdown(b)))
         case Err(e) => r == Err(e))
      case _ => r == Err(ParamsMismatch)
  {
    if location == "Modesto" then
      match params
      case ModestoParams(m) =>
        (match Modesto.CalculateModestoCosts(m)
         case Ok(b) => Ok((ModestoSchedule(Modesto.ModestoRates), ModestoBreakdown(b)))
         case Err(e) => Err(e))
      case _ => Err(ParamsMismatch)
    else if location == "Merced" then
      match MercedCall(params)
      case Ok(b) => Ok((MercedSchedule(Merced.MercedRates), MercedBreakdown(b)))
      case Err(e) => Err(e)
    else if location == "PG&E" then
      match params
      case PgeParams(m) =>
        (match Pge.CalculatePgeCosts(m)
         case Ok(b) => Ok((PgeSchedule(Pge.PgeRates), PgeBreakdown(b)))
         case Err(e) => Err(e))
      case _ => Err(ParamsMismatch)
    else
      Err(UnsupportedLocation)
  }

  /** The schedule and the breakdown are of the same location. */
  predicate SameLocation(schedule: RateSchedule, breakdown: LocationBreakdown)
  {
    match schedule
    case MercedSchedule(_) => breakdown.MercedBreakdown?
    case ModestoSchedule(_) => breakdown.ModestoBreakdown?
    case PgeSchedule(_) => breakdown.PgeBreakdown?
  }

  /** A successful dispatch returns the named location's own table with a
      breakdown of that location, and only known locations succeed. */
  lemma DispatchConsistent(location: string, params: LocationParams)
    ensures var r := CalculateCost(location, params);
      && (r.Ok? ==> location in Locations && SameLocation(r.value.0, r.value.1))
      && (r.Ok? && location == "Merced" ==> r.value.0 == MercedSchedule(Merced.MercedRates))
      && (r.Ok? && location == "Modesto" ==> r.value.0 == ModestoSchedule(Modesto.ModestoRates))
      && (r.Ok? && location == "PG&E" ==> r.value.0 == PgeSchedule(Pge.PgeRates))
  {
  }

  /** Dispatching never changes a calculation: on a location's own arguments
      it succeeds exactly when that location's calculator does, with the same
      breakdown, and fails with the calculator's error otherwise. */
  lemma DispatchAgreesWithCalculators(params: LocationParams)
    ensures params.MercedParams? ==>
      var r := CalculateCost("Merced", params);
      var c := Merced.CalculateMercedCosts(params.merced);
      (r.Ok? <==> c.Ok?) && (r.Ok? ==> r.value.1 == MercedBreakdown(c.value)) && (r.Err? ==> r.error == c.error)
    ensures params.ModestoParams? ==>
      var r := CalculateCost("Modesto", params);
      var c := Modesto.CalculateModestoCosts(params.modesto);
      (r.Ok? <==> c.Ok?) && (r.Ok? ==> r.value.1 == ModestoBreakdown(c.value)) && (r.Err? ==> r.error == c.error)
    ensures params.PgeParams? ==>
      var r := CalculateCost("PG&E", params);
      var c := Pge.CalculatePgeCosts(params.pge);
      (r.Ok? <==> c.Ok?) && (r.Ok? ==> r.value.1 == PgeBreakdown(c.value)) && (r.Err? ==> r.error == c.error)
  {
  }

  /** Modesto's arguments at Merced run Merced's tariff with the default
      surcharge; every other pairing of arguments and location is rejected. */
  lemma CrossLocationArguments(m: Modesto.Params, params: LocationParams, location: string)
    ensures var r := CalculateCost("Merced", ModestoParams(m));
      && (r.Ok? <==> m.season in Merced.MercedRates && !m.worstCase)
      && (r.Ok? ==> r.value.1.mercedBreakdown.params.mandatedChargePercent == Merced.DefaultMandatedChargePercent)
    ensures location == "Modesto" && !params.ModestoParams? ==> CalculateCost(location, params) == Err(ParamsMismatch)
    ensures location == "PG&E" && !params.PgeParams? ==> CalculateCost(location, params) == Err(ParamsMismatch)
    ensures location == "Merced" && params.PgeParams? ==> CalculateCost(location, params) == Err(ParamsMismatch)
  {
  }
}
