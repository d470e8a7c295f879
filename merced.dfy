/** Merced's municipal tariff: a monthly customer charge, one flat energy
    rate for every kWh, a demand charge on the peak power drawn, and a
    mandated percentage surcharge on the sum of those three. */
module Merced {
  import opened Distribution
  import opened Tariff

  /** One season's rates: $/month, $/kW of peak demand, $/kWh. */
  datatype SeasonRates = SeasonRates(customerCharge: real, demandChargePerKw: real, energyChargePerKwh: real)

  /** The rate schedule, keyed by season name. */
  const MercedRates: map<string, SeasonRates> := map[
    "summer" := SeasonRates(350.00, 28.00, 0.06780),
    "winter" := SeasonRates(350.00, 10.00, 0.06780)
  ]

  /** The surcharge percentage when the caller gives none. */
  const DefaultMandatedChargePercent: real := 5.35

  /** The inputs of one Merced calculation; the breakdown echoes them. */
  datatype Params = Params(
    numChargingSessions: int,
    numKwhPerSession: int,
    rateSessionDist: Dist,
    actualMaxNumSimultaneousCharging: int,
    season: string,
    mandatedChargePercent: real,
    worstCase: bool)

  datatype Breakdown = Breakdown(
    params: Params,
    customerCharge: real,
    energyCost: real,
    demandCharge: real,
    mandatedCharge: real,
    totalCost: real)

  /** The energy of every period of `kwh` that is also named in `distKeys`,
      at one flat rate, added in order. */
  function FlatEnergyCost(kwh: Items, distKeys: set<string>, ratePerKwh: real): real
  {
    if kwh == [] then 0.0
    else
      (if kwh[0].0 in distKeys then Mul(kwh[0].1, ratePerKwh) else 0.0)
      + FlatEnergyCost(kwh[1..], distKeys, ratePerKwh)
  }

  /** The line items for one season's rates, in the branch that is not the
      worst case. */
  function SeasonBreakdown(p: Params, rates: SeasonRates): Breakdown
  {
    var kwh := Scale(p.rateSessionDist, TotalKwh(p.numChargingSessions, p.numKwhPerSession));
    var energyCost := FlatEnergyCost(kwh, Keys(p.rateSessionDist), rates.energyChargePerKwh);
    var demandCharge := Mul(DemandKw(p.actualMaxNumSimultaneousCharging) as real, rates.demandChargePerKw);
    var subtotal := rates.customerCharge + energyCost + demandCharge;
    var mandatedCharge := Mul(subtotal, p.mandatedChargePercent / 100.0);
    Breakdown(p, rates.customerCharge, energyCost, demandCharge, mandatedCharge, subtotal + mandatedCharge)
  }

  /** The monthly cost breakdown, or why there is none: an unknown season
      fails, and so does the worst case, whose total charger count the
      calculation never defines. */
  function CalculateMercedCosts(p: Params): (r: Result<Breakdown>)
    ensures r.Ok? <==> p.season in MercedRates && !p.worstCase
    ensures p.season !in MercedRates ==> r == Err(UnsupportedSeason)
    ensures p.season in MercedRates && p.worstCase ==> r == Err(UndefinedTotalChargers)
    ensures r.Ok? ==> r.value == SeasonBreakdown(p, MercedRates[p.season])
  {
    if p.season in MercedRates then
      if p.worstCase then Err(UndefinedTotalChargers)
      else Ok(SeasonBreakdown(p, MercedRates[p.season]))
    else
      Err(UnsupportedSeason)
  }

  /** Every period of the split is one the distribution names, so the filter
      keeps them all and the energy charge is the split's energy at the flat
      rate. */
  lemma {:induction false} FlatEnergyOfNamedPeriods(kwh: Items, distKeys: set<string>, ratePerKwh: real)
    requires Keys(kwh) <= distKeys
    ensures FlatEnergyCost(kwh, distKeys, ratePerKwh) == Mul(Total(kwh), ratePerKwh)
  {
    if kwh != [] {
      assert Keys(kwh[1..]) <= Keys(kwh) by {
        forall key | key in Keys(kwh[1..]) ensures key in Keys(kwh) {
          var i :| 0 <= i < |kwh[1..]| && kwh[1..][i].0 == key;
          assert kwh[i + 1].0 == key;
        }
      }
      FlatEnergyOfNamedPeriods(kwh[1..], distKeys, ratePerKwh);
      MulDistributes(Total(kwh), kwh[0].1, Total(kwh[1..]), ratePerKwh);
    }
  }

  /** Scaling keeps the period names. */
  lemma ScaleKeepsKeys(d: Items, factor: real)
    ensures Keys(Scale(d, factor)) == Keys(d)
  {
    forall key | key in Keys(Scale(d, factor)) ensures key in Keys(d) {
      var i :| 0 <= i < |Scale(d, factor)| && Scale(d, factor)[i].0 == key;
      assert d[i].0 == key;
    }
  }

  /** The period names do not matter: the energy charge is the month's energy,
      weighted by the sum of the fractions, at the one flat rate, and exactly
      the month's energy at that rate when the fractions sum to one. */
  lemma EnergyAtFlatRate(p: Params, rates: SeasonRates)
    ensures SeasonBreakdown(p, rates).energyCost
         == Mul(Mul(Total(p.rateSessionDist), TotalKwh(p.numChargingSessions, p.numKwhPerSession)), rates.energyChargePerKwh)
    ensures Total(p.rateSessionDist) == 1.0 ==>
      SeasonBreakdown(p, rates).energyCost == Mul(TotalKwh(p.numChargingSessions, p.numKwhPerSession), rates.energyChargePerKwh)
  {
    var totalKwh := TotalKwh(p.numChargingSessions, p.numKwhPerSession);
    ScaleKeepsKeys(p.rateSessionDist, totalKwh);
    FlatEnergyOfNamedPeriods(Scale(p.rateSessionDist, totalKwh), Keys(p.rateSessionDist), rates.energyChargePerKwh);
    ScaleTotal(p.rateSessionDist, totalKwh);
  }

  /** The total is the four line items added, the surcharge is the given
      percentage of the other three, and so the total is those three raised
      by the surcharge percentage. */
  lemma TotalWithSurcharge(p: Params, rates: SeasonRates)
    ensures var b := SeasonBreakdown(p, rates);
      && b.totalCost == b.customerCharge + b.energyCost + b.demandCharge + b.mandatedCharge
      && b.mandatedCharge == Mul(b.customerCharge + b.energyCost + b.demandCharge, p.mandatedChargePercent / 100.0)
      && b.totalCost == Mul(b.customerCharge + b.energyCost + b.demandCharge, 1.0 + p.mandatedChargePercent / 100.0)
  {
  }

  /** Non-negative sessions, energy per session, fractions, charger count and
      surcharge under non-negative rates give non-negative line items. */
  lemma CostsNonNegative(p: Params, rates: SeasonRates)
    requires p.numChargingSessions >= 0 && p.numKwhPerSession >= 0 && p.actualMaxNumSimultaneousCharging >= 0
    requires NonNegativeValues(p.rateSessionDist) && p.mandatedChargePercent >= 0.0
    requires rates.customerCharge >= 0.0 && rates.demandChargePerKw >= 0.0 && rates.energyChargePerKwh >= 0.0
    ensures var b := SeasonBreakdown(p, rates);
      && b.energyCost >= 0.0 && b.demandCharge >= 0.0 && b.mandatedCharge >= 0.0
      && b.totalCost >= b.customerCharge + b.energyCost + b.demandCharge
  {
    var b := SeasonBreakdown(p, rates);
    EnergyAtFlatRate(p, rates);
    TotalNonNegative(p.rateSessionDist);
    MulNonNegative(Total(p.rateSessionDist), TotalKwh(p.numChargingSessions, p.numKwhPerSession));
    MulNonNegative(Mul(Total(p.rateSessionDist), TotalKwh(p.numChargingSessions, p.numKwhPerSession)), rates.energyChargePerKwh);
    MulNonNegative(DemandKw(p.actualMaxNumSimultaneousCharging) as real, rates.demandChargePerKw);
    MulNonNegative(b.customerCharge + b.energyCost + b.demandCharge, p.mandatedChargePercent / 100.0);
  }

  /** Doubling the sessions at fixed energy per session doubles the energy
      charge and leaves the customer and demand charges as they were. */
  lemma DoublingSessionsDoublesEnergy(p: Params, rates: SeasonRates)
    ensures var q := p.(numChargingSessions := 2 * p.numChargingSessions);
      && SeasonBreakdown(q, rates).energyCost == 2.0 * SeasonBreakdown(p, rates).energyCost
      && SeasonBreakdown(q, rates).customerCharge == SeasonBreakdown(p, rates).customerCharge
      && SeasonBreakdown(q, rates).demandCharge == SeasonBreakdown(p, rates).demandCharge
  {
    var q := p.(numChargingSessions := 2 * p.numChargingSessions);
    EnergyAtFlatRate(p, rates);
    EnergyAtFlatRate(q, rates);
    DoubledTotalKwh(p.numChargingSessions, p.numKwhPerSession);
    MulDoubled(TotalKwh(q.numChargingSessions, q.numKwhPerSession), TotalKwh(p.numChargingSessions, p.numKwhPerSession),
               Total(p.rateSessionDist));
    assert Mul(Total(p.rateSessionDist), TotalKwh(q.numChargingSessions, q.numKwhPerSession))
        == 2.0 * Mul(Total(p.rateSessionDist), TotalKwh(p.numChargingSessions, p.numKwhPerSession));
    MulDoubled(Mul(Total(p.rateSessionDist), TotalKwh(q.numChargingSessions, q.numKwhPerSession)),
               Mul(Total(p.rateSessionDist), TotalKwh(p.numChargingSessions, p.numKwhPerSession)),
               rates.energyChargePerKwh);
  }

  /** With the other inputs fixed, more chargers drawing at once never lowers
      the demand charge, and never lowers the total while the surcharge
      percentage is not below -100. */
  lemma DemandMonotone(p: Params, rates: SeasonRates, fewer: int, more: int)
    requires rates.demandChargePerKw >= 0.0
    requires fewer <= more
    ensures var lo := SeasonBreakdown(p.(actualMaxNumSimultaneousCharging := fewer), rates);
            var hi := SeasonBreakdown(p.(actualMaxNumSimultaneousCharging := more), rates);
      && lo.demandCharge <= hi.demandCharge
      && (p.mandatedChargePercent >= -100.0 ==> lo.totalCost <= hi.totalCost)
  {
    var lo := SeasonBreakdown(p.(actualMaxNumSimultaneousCharging := fewer), rates);
    var hi := SeasonBreakdown(p.(actualMaxNumSimultaneousCharging := more), rates);
    DemandKwMonotone(fewer, more);
    MulMonotone(DemandKw(fewer) as real, DemandKw(more) as real, rates.demandChargePerKw);
    TotalWithSurcharge(p.(actualMaxNumSimultaneousCharging := fewer), rates);
    TotalWithSurcharge(p.(actualMaxNumSimultaneousCharging := more), rates);
    if p.mandatedChargePercent >= -100.0 {
      MulMonotone(lo.customerCharge + lo.energyCost + lo.demandCharge, hi.customerCharge + hi.energyCost + hi.demandCharge,
                  1.0 + p.mandatedChargePercent / 100.0);
    }
  }

  /** Every season's rates are non-negative, so monotonicity holds for the
      whole schedule. */
  lemma RatesNonNegative(season: string)
    requires season in MercedRates
    ensures MercedRates[season].customerCharge >= 0.0
    ensures MercedRates[season].demandChargePerKw >= 0.0
    ensures MercedRates[season].energyChargePerKwh >= 0.0
  {
  }

  /** The summer example: 1000 sessions of 100 kWh, all on peak, ten chargers
      at once, the default surcharge. */
  lemma SummerExample()
    ensures var r := CalculateMercedCosts(Params(1000, 100, [("on_peak", 1.0)], 10, "summer", DefaultMandatedChargePercent, false));
      && r.Ok?
      && r.value.energyCost == 6780.0
      && r.value.demandCharge == 42000.0
      && r.value.mandatedCharge == 2628.455
      && r.value.totalCost == 51758.455
  {
    var p := Params(1000, 100, [("on_peak", 1.0)], 10, "summer", DefaultMandatedChargePercent, false);
    EnergyAtFlatRate(p, MercedRates["summer"]);
  }
}
